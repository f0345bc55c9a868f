/**
 A delivery whose transaction fails after it was recorded (deliver_notifications in
 libexec/workspace-coordination.rb): a whole run of the ledger after which a fenced
 owner has an event to send.
 */
module LateFailure {
  import opened Wrappers
  import opened MachinePolicy
  import opened Ledger
  import opened LedgerInvariant
  import opened LedgerClaims
  import opened LedgerRuns

  const SESSION := Owner(7, "/w", "s", true, None)
  const WANTED := ClaimRequest([], ["m"], "p")
  const ANNOUNCED := EventId(0, 1, None, OnHeld)

  /** A session that asked for a machine, in the given state of its claim and of the announcement. */
  function Story(fence: Option<Fence>, claim: Option<Claim>, event: Option<EventState>): State {
    Empty.(owners := map[0 := SESSION.(fence := fence)],
           claims := if claim.Some? then map[1 := claim.value] else map[],
           outbox := if event.Some? then map[ANNOUNCED := Event(0, event.value)] else map[])
  }

  function Wants(state: ClaimState, revision: nat, notify: bool): Option<Claim> {
    Some(Claim(0, WANTED, [Machine("m")], state, revision, 1, notify))
  }

  lemma RegisterStory(norm: Norm)
    ensures Next(norm, Empty, RegisterOwner(0, SESSION)) == Story(None, None, None)
  {
  }

  lemma AcquireStory(norm: Norm)
    ensures Next(norm, Story(None, None, None), AcquireClaim(0, 1, WANTED, [Machine("m")], true, false, true))
            == Story(None, Wants(Waiting, 1, false), None)
  {
    hide Blocked;
  }

  lemma TickStory(norm: Norm)
    ensures Next(norm, Story(None, Wants(Waiting, 1, false), None), Tick(0, 1)) == Story(None, Wants(Held, 2, true),
      None)
  {
    NothingBusy(norm);
    hide Blocked;
  }

  lemma NothingBusy(norm: Norm)
    ensures !Blocked(norm, Story(None, Wants(Waiting, 1, false), None), 1)
  {
    assert Busy(norm, Story(None, Wants(Waiting, 1, false), None)) == {};
  }

  lemma NotifyStory(norm: Norm)
    ensures Next(norm, Story(None, Wants(Held, 2, true), None), Notify(0, 1, {}))
            == Story(None, Wants(Held, 2, true), Some(Pending))
  {
  }

  lemma DeliverStory(norm: Norm)
    ensures Next(norm, Story(None, Wants(Held, 2, true), Some(Pending)), DeliverEvent(ANNOUNCED))
            == Story(None, Wants(Held, 2, true), Some(Delivered))
  {
  }

  lemma ReleaseStory(norm: Norm)
    ensures Next(norm, Story(None, Wants(Held, 2, true), Some(Delivered)), EndClaim(0, 1, true))
            == Before()
  {
  }

  const RAISED := Fence(Archive, false, None)

  function Before(): State {
    Story(None, Wants(Dropped, 3, false), Some(Delivered))
  }

  function After(): State {
    Story(Some(RAISED), Wants(Dropped, 3, false), Some(Delivered))
  }

  lemma RaisesFence()
    ensures FenceOwner(Before(), 0, Archive) == After()
  {
    var s, t := Before(), FenceOwner(Before(), 0, Archive);
    assert t.jobs == map[] && t.reservations == map[];
    assert t.outbox == s.outbox;
  }

  lemma RaisesFences()
    ensures FenceOwners(Before(), [0], Archive) == Success(After())
  {
    RaisesFence();
    hide FenceOwner, After;
    assert [0][1..] == [];
    assert FenceOwners(After(), [], Archive) == Success(After());
  }

  lemma MayFence()
    ensures IdleOwners(Before(), set i | i in [0]) && Distinct([0]) && Sync(After()) == After()
  {
    assert Sync(After()).claims == After().claims;
  }

  lemma FencesNow()
    ensures Fenced(Before(), Archive, [0]) == After()
  {
    RaisesFences();
    MayFence();
    hide FenceOwners, After, Sync;
  }

  lemma FenceStory(norm: Norm)
    ensures Next(norm, Before(), RaiseFences(Archive, [0])) == After()
  {
    FencesNow();
    hide Fenced, Before, After;
  }

  lemma FailStory(norm: Norm)
    ensures Next(norm, After(), FailEvent(ANNOUNCED))
            == Story(Some(RAISED), Wants(Dropped, 3, false), Some(Retry))
  {
  }

  /** The session waits for a machine, is granted it and told so, releases it, and is fenced. */
  const FENCED := [
    RegisterOwner(0, SESSION), AcquireClaim(0, 1, WANTED, [Machine("m")], true, false, true), Tick(0, 1),
    Notify(0, 1, {}), DeliverEvent(ANNOUNCED), EndClaim(0, 1, true), RaiseFences(Archive, [0])
  ]

  lemma FencedRun(norm: Norm)
    ensures Run(norm, Empty, FENCED) == After()
  {
    assert Run(norm, Empty, []) == Empty;
    hide *;
    RegisterStory(norm);
    AcquireStory(norm);
    TickStory(norm);
    NotifyStory(norm);
    DeliverStory(norm);
    ReleaseStory(norm);
    FenceStory(norm);
    var a := FENCED;
    RunAppend(norm, Empty, [], a[0]);
    RunAppend(norm, Empty, [] + [a[0]], a[1]);
    RunAppend(norm, Empty, [] + [a[0]] + [a[1]], a[2]);
    RunAppend(norm, Empty, [] + [a[0]] + [a[1]] + [a[2]], a[3]);
    RunAppend(norm, Empty, [] + [a[0]] + [a[1]] + [a[2]] + [a[3]], a[4]);
    RunAppend(norm, Empty, [] + [a[0]] + [a[1]] + [a[2]] + [a[3]] + [a[4]], a[5]);
    RunAppend(norm, Empty, [] + [a[0]] + [a[1]] + [a[2]] + [a[3]] + [a[4]] + [a[5]], a[6]);
    assert a == [] + [a[0]] + [a[1]] + [a[2]] + [a[3]] + [a[4]] + [a[5]] + [a[6]];
  }

  /**
   The delivery was recorded and its transaction failed afterwards; meanwhile the session was fenced. Recording the
   failure wakes the event of a fenced owner.
   */
  lemma LateFailureWakesFencedOwner(norm: Norm)
    ensures Silent(Run(norm, Empty, FENCED)) && StaleRetry(Run(norm, Empty, FENCED), ANNOUNCED)
    ensures !Silent(Run(norm, Empty, FENCED + [FailEvent(ANNOUNCED)]))
  {
    FencedRun(norm);
    FailStory(norm);
    RunAppend(norm, Empty, FENCED, FailEvent(ANNOUNCED));
    hide Next, Run;
    var s := Story(Some(RAISED), Wants(Dropped, 3, false), Some(Retry));
    assert ANNOUNCED in s.outbox && s.outbox[ANNOUNCED].owner in s.owners;
  }
}
