/**
 What acquiring, granting and ending a resource claim mean, said on the records: who may
 ask, what has to be free, and whose turn comes first
 (libexec/workspace-coordination-claims.rb).
 */
module ClaimMeaning {
  import opened Wrappers
  import opened MachinePolicy
  import opened Ledger
  import opened Admission
  import opened Scheduler

  predicate Live(s: State, owner: Id) {
    !s.suspended && owner in s.owners && s.owners[owner].fence == None
  }

  /** No reservation past its request has one of the machines, under any name. */
  ghost predicate Unoccupied(norm: Norm, s: State, resources: seq<Resource>) {
    forall r ::
      r in s.reservations && s.reservations[r].state in {Reserved, DeployedReview, Closing, BlockedRecovery} ==>
        !Meet(norm, [Machine(s.reservations[r].machine)], resources)
  }

  /** Nobody owns, holds or occupies any of the resources. */
  ghost predicate Clear(norm: Norm, s: State, resources: seq<Resource>) {
    Untaken(norm, s, resources) && Unclaimed(norm, s, resources) && Unoccupied(norm, s, resources)
  }

  /** The resources are clear, and no earlier waiting claim that could be granted wants one of them. */
  ghost predicate MayHold(norm: Norm, s: State, c: Id)
    requires c in s.claims
  {
    && Clear(norm, s, s.claims[c].resources)
    && forall o :: o in s.claims && o != c && s.claims[o].state == Waiting &&
                   s.claims[o].sequence < s.claims[c].sequence && Clear(norm, s, s.claims[o].resources) ==>
         !Meet(norm, s.claims[c].resources, s.claims[o].resources)
  }

  lemma UnoccupiedIs(norm: Norm, s: State, resources: seq<Resource>)
    ensures Keys(norm, resources) * OccupiedKeys(norm, s) == {} <==> Unoccupied(norm, s, resources)
  {
    if !Unoccupied(norm, s, resources) {
      var r, y :| r in s.reservations && Occupied(s.reservations[r].state) && y in resources &&
                  norm(Machine(s.reservations[r].machine)) == norm(y);
      assert norm(y) in Keys(norm, resources) * OccupiedKeys(norm, s);
    } else {
      forall r | r in s.reservations && Occupied(s.reservations[r].state)
        ensures norm(Machine(s.reservations[r].machine)) !in Keys(norm, resources)
      {
        MeetIs(norm, [Machine(s.reservations[r].machine)], resources);
        assert !Meet(norm, [Machine(s.reservations[r].machine)], resources);
        assert norm(Machine(s.reservations[r].machine)) in Keys(norm, [Machine(s.reservations[r].machine)]);
        assert Keys(norm, [Machine(s.reservations[r].machine)]) * Keys(norm, resources) == {};
      }
    }
  }

  lemma DisjointThree(mine: set<Resource>, a: set<Resource>, b: set<Resource>, c: set<Resource>)
    ensures mine !! a + b + c <==> mine * a == {} && mine * b == {} && mine * c == {}
  {
    if mine * a == {} && mine * b == {} && mine * c == {} {
      forall x | x in mine ensures x !in a + b + c {
        assert x in a ==> x in mine * a;
        assert x in b ==> x in mine * b;
        assert x in c ==> x in mine * c;
      }
    }
  }

  lemma FreeIs(norm: Norm, s: State, c: Id)
    requires c in s.claims
    ensures Free(norm, s, c) <==> Clear(norm, s, s.claims[c].resources)
  {
    var resources := s.claims[c].resources;
    UntakenIs(norm, s, resources);
    UnclaimedIs(norm, s, resources);
    UnoccupiedIs(norm, s, resources);
    DisjointThree(Keys(norm, resources), ActiveKeys(norm, s), OccupiedKeys(norm, s), HeldKeys(norm, s));
    hide Keys, ActiveKeys, OccupiedKeys, HeldKeys, Untaken, Unclaimed, Unoccupied;
  }

  lemma MayHoldIs(norm: Norm, s: State, c: Id)
    requires c in s.claims
    ensures Blocked(norm, s, c) <==> !MayHold(norm, s, c)
  {
    FreeIs(norm, s, c);
    forall o | o in s.claims
      ensures Free(norm, s, o) <==> Clear(norm, s, s.claims[o].resources)
      ensures Keys(norm, s.claims[c].resources) * Keys(norm, s.claims[o].resources) != {} <==>
        Meet(norm, s.claims[c].resources, s.claims[o].resources)
    {
      FreeIs(norm, s, o);
      MeetIs(norm, s.claims[c].resources, s.claims[o].resources);
    }
    hide Free, Clear, Keys, Meet;
  }

  /** The claim as it is first entered. */
  function Entered(s: State, owner: Id, request: ClaimRequest, resources: seq<Resource>, state: ClaimState): Claim {
    Claim(owner, request, resources, state, 1, |s.claims| + 1, false)
  }

  /** What an acquisition does: repeated, it answers from the record; new, it is granted, queued or refused. */
  ghost predicate Acquired(norm: Norm, s: State, t: State, r: Result<Claim>, owner: Id, id: Id, request: ClaimRequest,
      resources: seq<Resource>, wait: bool, grant: bool, capacity: bool) {
    if !Live(s, owner) then r.Refused? && t == s
    else if id in s.claims then
      t == s && if s.claims[id].owner == owner && s.claims[id].request == request then r == Success(s.claims[id])
        else r.Refused?
    else
      var granted := grant && MayHold(norm, s.(claims := s.claims[id := Entered(s, owner, request, resources,
        Waiting)]), id);
      if (granted || wait) && capacity then
        && r == Success(Entered(s, owner, request, resources, if granted then Held else Waiting))
        && t == s.(claims := s.claims[id := r.value])
      else r.Refused? && t == s
  }

  lemma AcquireMeans(norm: Norm, s: State, owner: Id, id: Id, request: ClaimRequest, resources: seq<Resource>,
      wait: bool, grant: bool, capacity: bool)
    ensures var (t, r) := Acquire(norm, s, owner, id, request, resources, wait, grant, capacity);
      Acquired(norm, s, t, r, owner, id, request, resources, wait, grant, capacity)
  {
    var s1 := NewClaim(s, owner, id, request, resources);
    MayHoldIs(norm, s1, id);
    hide Blocked, MayHold, SameOwners, SameRecords;
  }

  /** A waiting claim of a live owner is granted when it may be held; nothing else changes. */
  lemma TickMeans(norm: Norm, s: State, owner: Id, c: Id)
    ensures TickClaim(norm, s, owner, c) ==
      if Live(s, owner) && c in s.claims && s.claims[c].owner == owner && s.claims[c].state == Waiting &&
        MayHold(norm, s, c)
      then s.(claims := s.claims[c := s.claims[c].(state := Held, revision := s.claims[c].revision + 1,
        notify := true)])
      else s
  {
    if c in s.claims {
      MayHoldIs(norm, s, c);
    }
    hide Blocked, MayHold, SameOwners, SameRecords;
  }

  /** A held claim is released, a waiting one canceled, by its live owner; repeating either changes nothing. */
  ghost predicate EndedAs(s: State, t: State, r: Result<Claim>, owner: Id, c: Id, release: bool) {
    var from, to := if release then Held else Waiting, if release then Dropped else Withdrawn;
    if Live(s, owner) && c in s.claims && s.claims[c].owner == owner && s.claims[c].state == from then
      && r == Success(s.claims[c].(state := to, notify := false, revision := s.claims[c].revision + 1))
      && t == s.(claims := s.claims[c := r.value])
    else
      && t == s
      && (r.Success? <==> Live(s, owner) && c in s.claims && s.claims[c].owner == owner && s.claims[c].state == to)
      && (r.Success? ==> r.value == s.claims[c])
  }

  lemma EndMeans(s: State, owner: Id, c: Id, release: bool)
    ensures var (t, r) := ChangeClaim(s, owner, c, release); EndedAs(s, t, r, owner, c, release)
  {
    hide SameOwners, SameRecords;
  }
}
