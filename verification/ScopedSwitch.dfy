/**
 The scoped provider switch (portal/cmd/workspace-portal/codex_provider_scoped.go) for
 threads without a goal: every retained thread is closed under a journaled intent,
 reopened on the target provider, and continued when this switch interrupted it.

 A crash is a native call or a save that reports failure, with or without its effect;
 the next run starts again from what was saved. Between any two effects the threads
 that are open move on by themselves.
 */
module ScopedSwitch {
  import opened Wrappers

  type Id = nat

  datatype Actor = Switch | Foreign

  datatype Status = InProgress | Completed | Interrupted(actor: Actor)

  /** Later turns of a thread have larger identities. */
  datatype Turn = Turn(id: nat, status: Status)

  datatype Thread = Thread(archived: bool, turn: Turn)

  datatype Intent = Intent(active: bool, closeIntent: bool, closed: bool, verified: bool, continued: bool,
    continuation: Id, pause: nat)

  /** What happened to one thread beside what the program saved. */
  datatype History = History(
    seen: set<nat>,          // turns that a saved journal entry found already ended
    lost: set<nat>,          // turns stopped by an archive call that failed while the journal named an older turn
    reopened: bool,
    judged: Option<Turn>,    // the last turn when the saved decision to continue was taken
    sent: seq<Id>)

  // ---------------------------------------------------------------- what the program computes

  /** The journal entry before an archive call; the same stopped turn keeps its flag. */
  function Observe(i: Intent, turn: Turn): Intent {
    if !i.closeIntent || turn.id != i.pause || turn.status.InProgress?
    then i.(active := turn.status.InProgress?, pause := turn.id, closeIntent := true)
    else i
  }

  /** The decision to continue, from the last turn of the closed thread. */
  function Judge(i: Intent, turn: Turn): Intent {
    i.(active := turn.status.Interrupted? && (i.active || turn.id != i.pause))
  }

  // ---------------------------------------------------------------- what threads do

  /** Without the switch a thread that is open may end its turn, be stopped by somebody else, or start newer turns. */
  predicate Evolves(a: Thread, b: Thread) {
    || b == a
    || (!a.archived && !b.archived && a.turn.status.InProgress? && b.turn.id == a.turn.id
      && (b.turn.status.Completed? || b.turn.status == Interrupted(Foreign)))
    || (!a.archived && !b.archived && b.turn.id > a.turn.id && b.turn.status != Interrupted(Switch))
  }

  function Stopped(turn: Turn): Turn {
    if turn.status.InProgress? then turn.(status := Interrupted(Switch)) else turn
  }

  // ---------------------------------------------------------------- one thread

  datatype Local = Local(i: Intent, w: Thread, h: History)

  /** scoped-prepare: the thread is open, and this switch has stopped none of its turns. */
  function Prepared(w: Thread, continuation: Id): Local {
    Local(Intent(w.turn.status.InProgress?, false, false, false, false, continuation, w.turn.id), w,
      History({}, {}, false, None, []))
  }

  /** The history once the journal entry for the last turn is saved. */
  function Noticed(i: Intent, turn: Turn, h: History): History {
    if turn.status.InProgress? || (i.closeIntent && turn.id == i.pause) then h else h.(seen := h.seen + {turn.id})
  }

  /** An archive call that fails may still have stopped the running turn. */
  function FailedArchive(i: Intent, turn: Turn, h: History): History {
    if turn.status.InProgress? && turn.id != i.pause then h.(lost := h.lost + {turn.id}) else h
  }

  /** A saved or native effect of the program on one thread, or what the thread does by itself. */
  datatype Step = Evolve(w: Thread) | Journal | StopOnly | Archive | Close | Decide | Reopen | Verify | Send | Finish

  predicate Enabled(a: Local, step: Step) {
    match step
    case Evolve(w) => Evolves(a.w, w)
    case Journal => !a.i.closed && !a.w.archived
    case StopOnly => a.i.closeIntent && !a.i.closed && !a.w.archived
    case Archive =>
      a.i.closeIntent && !a.i.closed && (a.w.archived || a.w.turn.id == a.i.pause || a.w.turn.id !in a.h.lost)
    case Close => a.i.closeIntent && a.w.archived && !a.i.verified
    case Decide => a.i.closed && !a.i.verified
    case Reopen => a.i.closed
    case Verify => a.h.judged.Some?
    case Send => a.i.verified && a.i.active && !a.i.continued
    case Finish => a.i.verified && (a.i.active ==> a.h.sent != [])
  }

  function Apply(a: Local, step: Step): Local {
    match step
    case Evolve(w) => a.(w := w)
    case Journal => a.(i := Observe(a.i, a.w.turn), h := Noticed(a.i, a.w.turn, a.h))
    case StopOnly => a.(w := a.w.(turn := Stopped(a.w.turn)), h := FailedArchive(a.i, a.w.turn, a.h))
    case Archive => a.(w := Thread(true, Stopped(a.w.turn)))
    case Close => a.(i := a.i.(closed := true))
    case Decide => a.(i := Judge(a.i, a.w.turn), h := a.h.(judged := Some(a.w.turn)))
    case Reopen => a.(w := a.w.(archived := false), h := a.h.(reopened := true))
    case Verify => a.(i := a.i.(verified := true))
    case Send => a.(h := a.h.(sent := a.h.sent + [a.i.continuation]))
    case Finish => a.(i := a.i.(continued := true))
  }

  /** How the journal, the thread and its history relate. */
  ghost predicate Journaled(a: Local) {
    var turn := a.w.turn;
    && a.i.pause <= turn.id && (forall x :: x in a.h.seen ==> x <= a.i.pause) && (forall x :: x in a.h.lost ==>
      x <= turn.id)
    && (turn.id in a.h.seen ==> !turn.status.InProgress?)
    && (turn.id in a.h.lost ==> turn.status == Interrupted(Switch))
    && (turn.id in a.h.lost && (turn.id == a.i.pause || a.w.archived || a.h.reopened) ==> turn.id in a.h.seen)
    && (turn.status == Interrupted(Switch) && turn.id in a.h.seen ==> turn.id in a.h.lost)
    && (turn.status == Interrupted(Switch) && turn.id != a.i.pause && !a.w.archived && !a.h.reopened ==>
      turn.id in a.h.lost)
    && (turn.id == a.i.pause && turn.status.Interrupted? ==> (a.i.active <==> turn.id !in a.h.seen))
    && (turn.id == a.i.pause && turn.status.InProgress? ==> a.i.active)
  }

  /** Whether the saved decision is to continue, in terms of what happened. */
  predicate Continues(turn: Turn, h: History) {
    turn.status.Interrupted? && turn.id !in h.seen
  }

  ghost predicate ThreadInv(a: Local, continuation: Id) {
    && a.i.continuation == continuation
    && (a.i.closeIntent ==> Journaled(a))
    && (!a.i.closeIntent ==>
          && !a.i.closed && !a.w.archived && a.w.turn.status != Interrupted(Switch) && a.i.pause <= a.w.turn.id
          && a.h.seen == {} && a.h.lost == {})
    && (a.i.closed && !a.h.reopened ==> a.w.archived)
    && (a.i.closed && a.w.turn.id == a.i.pause ==> !a.w.turn.status.InProgress?)
    && (a.w.archived ==> !a.w.turn.status.InProgress?)
    && (a.h.reopened ==> a.i.closed)
    && (a.h.judged.Some? ==>
          && a.i.closed && (a.i.active <==> Continues(a.h.judged.value, a.h))
          && (a.h.judged.value.status == Interrupted(Switch) ==>
                (a.h.judged.value.id in a.h.seen <==> a.h.judged.value.id in a.h.lost)))
    && (a.i.verified ==> a.h.judged.Some?)
    && (a.i.continued ==> a.i.verified)
    && (forall x :: x in a.h.sent ==> x == continuation)
    && (a.h.sent != [] ==> a.i.verified && a.i.active)
    && (a.i.continued && a.i.active ==> a.h.sent != [])
  }

  lemma PreparedKeeps(w: Thread, continuation: Id)
    requires !w.archived && w.turn.status != Interrupted(Switch)
    ensures ThreadInv(Prepared(w, continuation), continuation)
  {
  }

  lemma StepKeeps(a: Local, step: Step, continuation: Id)
    requires ThreadInv(a, continuation) && Enabled(a, step)
    ensures ThreadInv(Apply(a, step), continuation)
  {
    match step {
      case Decide =>
        assert a.w.turn.status.Interrupted? ==> a.w.turn.status.actor.Switch? || a.w.turn.status.actor.Foreign?;
      case _ =>
    }
  }

  /** Messages go out only after the routing was verified, under one identity, and for the turn that was decided on. */
  ghost predicate Deserved(i: Intent, h: History, continuation: Id) {
    h.sent != [] ==>
      && i.verified && h.judged.Some? && Continues(h.judged.value, h)
      && forall x :: x in h.sent ==> x == continuation
  }

  /** Somebody else stopped the last turn after the journal had last looked: this looks like the work of the switch. */
  predicate TakenForOwn(turn: Turn, h: History) {
    turn.status == Interrupted(Foreign) && turn.id !in h.seen
  }

  /** The last turn was stopped by an archive call that failed while the journal named an older turn. */
  predicate Forgotten(turn: Turn, h: History) {
    turn.status == Interrupted(Switch) && turn.id in h.lost
  }

  /** A finished thread was treated rightly if it was continued exactly when this switch stopped its last turn. */
  predicate TreatedRightly(h: History) {
    h.judged.Some? && (h.sent != [] <==> h.judged.value.status == Interrupted(Switch))
  }

  ghost predicate Settled(i: Intent, h: History) {
    i.continued ==>
      && h.judged.Some? && (h.sent != [] <==> Continues(h.judged.value, h))
      && (TreatedRightly(h) <==> !TakenForOwn(h.judged.value, h) && !Forgotten(h.judged.value, h))
  }

  lemma ContinuationIsDeserved(a: Local, continuation: Id)
    requires ThreadInv(a, continuation)
    ensures Deserved(a.i, a.h, continuation)
  {
  }

  /** The exact condition under which a finished thread was continued as it should have been. */
  lemma ContinuedExactly(a: Local, continuation: Id)
    requires ThreadInv(a, continuation)
    ensures Settled(a.i, a.h)
  {
    if a.i.continued {
      var turn := a.h.judged.value;
      assert turn.status.Interrupted? ==> turn.status.actor.Switch? || turn.status.actor.Foreign?;
    }
  }

  // ---------------------------------------------------------------- the two ways to be wrong

  function Run(a: Local, steps: seq<Step>): Local
    decreases steps
  {
    if steps == [] then a else Run(Apply(a, steps[0]), steps[1..])
  }

  predicate Possible(a: Local, steps: seq<Step>)
    decreases steps
  {
    steps == [] || (Enabled(a, steps[0]) && Possible(Apply(a, steps[0]), steps[1..]))
  }

  lemma {:induction false} RunKeeps(a: Local, steps: seq<Step>, continuation: Id)
    requires ThreadInv(a, continuation) && Possible(a, steps)
    ensures ThreadInv(Run(a, steps), continuation)
    decreases steps
  {
    hide ThreadInv, Enabled, Apply;
    if steps != [] {
      StepKeeps(a, steps[0], continuation);
      RunKeeps(Apply(a, steps[0]), steps[1..], continuation);
    }
  }

  lemma Prepend(a: Local, step: Step, rest: seq<Step>)
    requires Enabled(a, step) && Possible(Apply(a, step), rest)
    ensures Possible(a, [step] + rest) && Run(a, [step] + rest) == Run(Apply(a, step), rest)
  {
    assert ([step] + rest)[1..] == rest;
  }

  /** From the first closing to the end, for a thread that is archived and not decided on. */
  lemma Conclude(a: Local) returns (steps: seq<Step>)
    requires a.i.closeIntent && a.w.archived && !a.i.closed && !a.i.verified && !a.i.continued && a.h.sent == []
    ensures Possible(a, steps) && Run(a, steps).i.continued
    ensures var end := Run(a, steps);
      && end.h.judged == Some(a.w.turn) && end.h.seen == a.h.seen && end.h.lost == a.h.lost
      && (end.h.sent != [] <==> Judge(a.i, a.w.turn).active)
  {
    var a1 := Apply(a, Close);
    var a2 := Apply(a1, Decide);
    var a3 := Apply(Apply(a2, Reopen), Verify);
    steps := [Finish];
    if a3.i.active {
      Prepend(Apply(a3, Send), Finish, []);
      Prepend(a3, Send, [Finish]);
      steps := [Send] + [Finish];
    } else {
      Prepend(a3, Finish, []);
    }
    Prepend(Apply(a2, Reopen), Verify, steps);
    steps := [Verify] + steps;
    Prepend(a2, Reopen, steps);
    steps := [Reopen] + steps;
    Prepend(a1, Decide, steps);
    steps := [Decide] + steps;
    Prepend(a, Close, steps);
    steps := [Close] + steps;
  }

  const WORKING := Thread(false, Turn(1, InProgress))

  /**
   Turn 2 began after turn 1 was journaled; the archive call stops it and fails. The next run journals turn 2 as
   already ended, so the thread is never continued.
   */
  lemma LostContinuation() returns (steps: seq<Step>)
    ensures Possible(Prepared(WORKING, 9), steps) && ThreadInv(Run(Prepared(WORKING, 9), steps), 9)
    ensures var a := Run(Prepared(WORKING, 9), steps);
      && a.i.continued && a.h.judged == Some(Turn(2, Interrupted(Switch))) && a.h.sent == [] && !TreatedRightly(a.h)
  {
    var a0 := Prepared(WORKING, 9);
    var newer := Evolve(Thread(false, Turn(2, InProgress)));
    var a1 := Apply(a0, Journal);
    var a2 := Apply(a1, newer);
    var a3 := Apply(a2, StopOnly);
    var a4 := Apply(a3, Journal);
    var a5 := Apply(a4, Archive);
    steps := Conclude(a5);
    Prepend(a4, Archive, steps);
    steps := [Archive] + steps;
    Prepend(a3, Journal, steps);
    steps := [Journal] + steps;
    Prepend(a2, StopOnly, steps);
    steps := [StopOnly] + steps;
    Prepend(a1, newer, steps);
    steps := [newer] + steps;
    Prepend(a0, Journal, steps);
    steps := [Journal] + steps;
    PreparedKeeps(WORKING, 9);
    RunKeeps(a0, steps, 9);
  }

  /** Somebody else stops the journaled turn before the archive call: the thread is continued all the same. */
  lemma ForeignStopIsContinued() returns (steps: seq<Step>)
    ensures Possible(Prepared(WORKING, 9), steps) && ThreadInv(Run(Prepared(WORKING, 9), steps), 9)
    ensures var a := Run(Prepared(WORKING, 9), steps);
      && a.i.continued && a.h.judged == Some(Turn(1, Interrupted(Foreign))) && a.h.sent != [] && !TreatedRightly(a.h)
  {
    var a0 := Prepared(WORKING, 9);
    var stop := Evolve(Thread(false, Turn(1, Interrupted(Foreign))));
    var a1 := Apply(a0, Journal);
    var a2 := Apply(a1, stop);
    var a3 := Apply(a2, Archive);
    steps := Conclude(a3);
    Prepend(a2, Archive, steps);
    steps := [Archive] + steps;
    Prepend(a1, stop, steps);
    steps := [stop] + steps;
    Prepend(a0, Journal, steps);
    steps := [Journal] + steps;
    PreparedKeeps(WORKING, 9);
    RunKeeps(a0, steps, 9);
  }

  // ---------------------------------------------------------------- the program

  type Intents = map<Id, Intent>
  type Threads = map<Id, Thread>
  type Histories = map<Id, History>

  ghost predicate AllInv(ids: seq<Id>, disk: Intents, world: Threads, history: Histories, continuation: map<Id, Id>) {
    forall t :: t in ids ==>
      t in disk && t in world && t in history && t in continuation
        && ThreadInv(Local(disk[t], world[t], history[t]), continuation[t])
  }

  ghost predicate Moved(ids: seq<Id>, world: Threads, next: Threads) {
    forall t :: t in ids ==> t in world && t in next && Evolves(world[t], next[t])
  }

  class Runner {
    const ids: seq<Id>
    const continuation: map<Id, Id>
    var disk: Intents
    var world: Threads
    ghost var history: Histories

    ghost predicate Valid()
      reads this
    {
      AllInv(ids, disk, world, history, continuation)
    }

    ghost function At(t: Id): Local
      requires t in disk && t in world && t in history
      reads this
    {
      Local(disk[t], world[t], history[t])
    }

    /** scoped-prepare: the retained threads are open, and this switch has stopped none of their turns. */
    constructor (ids: seq<Id>, world: Threads, continuation: map<Id, Id>)
      requires forall t :: t in ids ==>
        t in world && t in continuation && !world[t].archived && world[t].turn.status != Interrupted(Switch)
      ensures Valid() && this.ids == ids && this.world == world && this.continuation == continuation
      ensures forall t :: t in ids ==> t in disk && t in history && At(t) == Prepared(world[t], continuation[t])
    {
      this.ids, this.world, this.continuation := ids, world, continuation;
      disk := map t | t in ids :: Intent(world[t].turn.status.InProgress?, false, false, false, false, continuation[t],
        world[t].turn.id);
      history := map t | t in ids :: History({}, {}, false, None, []);
    }

    /** Open threads move on. */
    method Drift()
      requires Valid()
      modifies this`world
      ensures Valid() && Moved(ids, old(world), world)
    {
      var next: Threads := *;
      if forall t :: t in ids ==> t in next && Evolves(world[t], next[t]) {
        forall t | t in ids ensures ThreadInv(Local(disk[t], next[t], history[t]), continuation[t]) {
          StepKeeps(At(t), Evolve(next[t]), continuation[t]);
        }
        world := next;
      } else {
        assert Moved(ids, world, world);
      }
    }

    /** Read whether a thread is archived, or fail. */
    method ReadArchived(t: Id) returns (ok: bool, archived: bool)
      requires Valid() && t in ids
      modifies this`world
      ensures Valid() && archived == world[t].archived && Moved(ids, old(world), world)
    {
      Drift();
      ok, archived := *, world[t].archived;
    }

    /** Read the last turn of a thread, or fail. */
    method ReadTurn(t: Id) returns (ok: bool, turn: Turn)
      requires Valid() && t in ids
      modifies this`world
      ensures Valid() && turn == world[t].turn && Moved(ids, old(world), world)
    {
      Drift();
      ok, turn := *, world[t].turn;
    }

    /**
     Replace the snapshot by one in which the intent of one thread changed. The file is replaced at once, if at all;
     `step` is what a written snapshot means.
     */
    method Save(t: Id, i: Intent, ghost step: Step) returns (ok: bool)
      requires Valid() && t in ids && Enabled(At(t), step)
      requires i == Apply(At(t), step).i && world[t] == Apply(At(t), step).w
      modifies this
      ensures Valid() && Moved(ids, old(world), world)
      ensures ok ==> disk == old(disk)[t := i] && history == old(history)[t := Apply(old(At(t)), step).h]
      ensures !ok ==> disk == old(disk)[t := disk[t]] && history == old(history)[t := history[t]]
    {
      var written: bool := *;
      ok := *;
      if written || ok {
        StepKeeps(At(t), step, continuation[t]);
        disk, history := disk[t := i], history[t := Apply(At(t), step).h];
      }
      Drift();
    }

    /** Native archive: stops a running turn, then moves the history; it may stop the turn and still fail. */
    method ArchiveThread(t: Id) returns (ok: bool)
      requires Valid() && t in ids && Enabled(At(t), Archive)
      modifies this`world, this`history
      ensures Valid() && (ok ==> world[t].archived) && history == old(history)[t := history[t]]
      ensures history[t].judged == old(history)[t].judged
    {
      Drift();
      var stops, moves: bool := *, *;
      ok := *;
      if moves || ok {
        StepKeeps(At(t), Archive, continuation[t]);
        world := world[t := Thread(true, Stopped(world[t].turn))];
      } else if stops && !world[t].archived {
        StepKeeps(At(t), StopOnly, continuation[t]);
        history := history[t := FailedArchive(disk[t], world[t].turn, history[t])];
        world := world[t := world[t].(turn := Stopped(world[t].turn))];
      }
    }

    /** Native unarchive. Every thread of the switch is closed before the first one is opened again. */
    method Unarchive(t: Id) returns (ok: bool)
      requires Valid() && t in ids && forall u :: u in ids ==> disk[u].closed
      modifies this`world, this`history
      ensures Valid() && history == old(history)[t := history[t]] && history[t].judged == old(history)[t].judged
    {
      Drift();
      var opens: bool := *;
      ok := *;
      if opens || ok {
        StepKeeps(At(t), Reopen, continuation[t]);
        world := world[t := world[t].(archived := false)];
        history := history[t := history[t].(reopened := true)];
      }
    }

    /** Native resume, settings update and the check of the effective routing. */
    method VerifyRouting(t: Id) returns (ok: bool)
      requires Valid() && t in ids
      modifies this`world
      ensures Valid()
    {
      Drift();
      ok := *;
    }

    /**
     Native message. It is sent only to a verified thread that was decided to continue, and with its fixed identity.
     */
    method SendMessage(t: Id, identity: Id) returns (ok: bool)
      requires Valid() && t in ids && disk[t].verified && disk[t].active && !disk[t].continued
      requires identity == disk[t].continuation
      modifies this`world, this`history
      ensures Valid() && (ok ==> history[t].sent != []) && history == old(history)[t := history[t]]
    {
      Drift();
      var sends: bool := *;
      ok := *;
      if sends || ok {
        StepKeeps(At(t), Send, continuation[t]);
        history := history[t := history[t].(sent := history[t].sent + [identity])];
      }
    }

    // ---------------------------------------------------------------- the two commands

    /** Only the intent of one thread and what is known of it have changed. */
    twostate predicate OthersSame(t: Id)
      reads this
    {
      forall u :: u in ids && u != t ==>
        && u in disk && u in history && u in old(disk) && u in old(history)
        && disk[u] == old(disk)[u] && history[u] == old(history)[u]
    }

    /** Stop and archive an open thread under a journaled intent. */
    method StopThread(t: Id) returns (ok: bool)
      requires Valid() && t in ids && !disk[t].closed && !world[t].archived
      modifies this
      ensures Valid() && OthersSame(t)
      ensures ok ==> world[t].archived && disk[t].verified == old(disk)[t].verified && !disk[t].closed
      ensures ok ==> disk[t].closeIntent
    {
      var turn;
      ok, turn := ReadTurn(t);
      if !ok {
        return;
      }
      ok := Save(t, Observe(disk[t], turn), Journal);
      if !ok {
        return;
      }
      ok := ArchiveThread(t);
    }

    /** Close one thread. */
    method MarkClosed(t: Id) returns (ok: bool)
      requires Valid() && t in ids && !disk[t].verified && !disk[t].closed
      modifies this
      ensures Valid() && OthersSame(t) && (ok ==> disk[t].closed && !disk[t].verified)
    {
      var archived;
      ok, archived := ReadArchived(t);
      if !ok {
        return;
      }
      if !archived {
        ok := StopThread(t);
        if !ok {
          return;
        }
      }
      ok := Save(t, disk[t].(closed := true), Close);
    }

    /** Close one thread under its intent and decide whether to continue it. */
    method CloseThread(t: Id) returns (ok: bool)
      requires Valid() && t in ids && !disk[t].verified
      modifies this
      ensures Valid() && OthersSame(t) && (ok ==> disk[t].closed && history[t].judged.Some?)
    {
      if !disk[t].closed {
        ok := MarkClosed(t);
        if !ok {
          return;
        }
      }
      var turn;
      ok, turn := ReadTurn(t);
      if !ok {
        return;
      }
      ok := Save(t, Judge(disk[t], turn), Decide);
    }

    /** Open one thread on the target and prove its routing. */
    method ReopenThread(t: Id) returns (ok: bool)
      requires Valid() && t in ids && forall u :: u in ids ==> disk[u].closed && history[u].judged.Some?
      modifies this
      ensures Valid() && (ok ==> disk[t].verified)
      ensures ok ==> forall u :: u in ids ==>
        disk[u].closed && history[u].judged.Some? && (old(disk)[u].verified ==> disk[u].verified)
    {
      var archived;
      ok, archived := ReadArchived(t);
      if !ok {
        return;
      }
      if archived {
        ok := Unarchive(t);
        if !ok {
          return;
        }
      }
      ok := VerifyRouting(t);
      if !ok {
        return;
      }
      ok := Save(t, disk[t].(verified := true), Verify);
    }

    /** scoped-switch: close every unverified thread, then open and verify every thread. */
    method SwitchThreads() returns (ok: bool)
      requires Valid()
      modifies this
      ensures Valid() && (ok ==> forall t :: t in ids ==> disk[t].verified)
    {
      hide Journaled, Apply, Enabled;
      ok := true;
      for k := 0 to |ids|
        invariant Valid()
        invariant forall j :: 0 <= j < k ==> disk[ids[j]].closed && history[ids[j]].judged.Some?
      {
        if !disk[ids[k]].verified {
          ok := CloseThread(ids[k]);
          if !ok {
            return;
          }
        }
      }
      for k := 0 to |ids|
        invariant Valid() && forall u :: u in ids ==> disk[u].closed && history[u].judged.Some?
        invariant forall j :: 0 <= j < k ==> disk[ids[j]].verified
      {
        ok := ReopenThread(ids[k]);
        if !ok {
          return;
        }
      }
    }

    /** scoped-continue: continue the threads that this switch interrupted. */
    method ContinueThreads() returns (ok: bool)
      requires Valid()
      modifies this
      ensures Valid() && (ok ==> forall t :: t in ids ==> disk[t].continued)
    {
      ok := true;
      for k := 0 to |ids|
        invariant Valid() && forall j :: 0 <= j < k ==> disk[ids[j]].continued
      {
        var t := ids[k];
        if !disk[t].verified {
          ok := false;
          return;
        }
        if !disk[t].continued {
          if disk[t].active {
            ok := SendMessage(t, disk[t].continuation);
            if !ok {
              return;
            }
          }
          ok := Save(t, disk[t].(continued := true), Finish);
          if !ok {
            return;
          }
        }
      }
    }

    /** Any number of runs of either command, each starting from what the one before it saved. */
    method Drive(runs: nat)
      requires Valid()
      modifies this
      ensures Valid()
      ensures forall t :: t in ids ==> t in disk && t in history && t in continuation
      ensures forall t :: t in ids ==> Deserved(disk[t], history[t], continuation[t]) && Settled(disk[t], history[t])
    {
      for n := 0 to runs
        invariant Valid()
      {
        var switching: bool := *;
        var ok: bool;
        if switching {
          ok := SwitchThreads();
        } else {
          ok := ContinueThreads();
        }
      }
      forall t | t in ids ensures Deserved(disk[t], history[t], continuation[t]) && Settled(disk[t], history[t]) {
        ContinuationIsDeserved(At(t), continuation[t]);
        ContinuedExactly(At(t), continuation[t]);
      }
    }
  }
}
