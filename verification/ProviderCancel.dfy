/**
 Cancelling a scoped provider switch (libexec/workspace-provider-sessions.rb and
 libexec/workspace-codex-providers.rb). The operation is stored in two files, a main
 record and a control record, written one after the other under the request lock; the
 worker keeps its own copy of the operation between its locked sections.
 */
module ProviderCancel {
  import opened Wrappers

  type Id = nat

  datatype Phase = Waiting | Applying | Applied | Canceled | Failed | RecoveryRequired

  datatype Stage =
    | Accepted | WaitingCreation | WaitingPackage
    | Quiescing | Preparing
    | Switching | Resuming | Restoring

  /** The operation as a reader sees it: the main record merged with the control record. */
  datatype Operation = Operation(id: Id, phase: Phase, stage: Stage, cancelRequested: bool, dismissed: bool)

  datatype Record = Record(id: Id, phase: Phase, stage: Stage)
  datatype Control = Control(cancelRequested: bool, dismissed: bool)
  datatype Files = Files(main: Option<Record>, controls: map<Id, Control>)

  // ---------------------------------------------------------------- one locked section

  predicate Early(stage: Stage) {
    stage.Accepted? || stage.WaitingCreation? || stage.WaitingPackage?
  }

  /** No thread has been closed yet. */
  predicate BeforeCutoff(stage: Stage) {
    stage.Quiescing? || stage.Preparing?
  }

  predicate Late(stage: Stage) {
    stage.Switching? || stage.Resuming? || stage.Restoring?
  }

  /** What the reader accepts: a reserved operation is past its admission. */
  predicate Readable(r: Record) {
    r.phase.Applying? || r.phase.RecoveryRequired? ==> !Early(r.stage)
  }

  predicate Flagged(files: Files, id: Id) {
    id in files.controls && files.controls[id].cancelRequested
  }

  function Read(files: Files): Option<Operation> {
    if files.main.None? || !Readable(files.main.value) then None
    else
      var r := files.main.value;
      var c := if r.id in files.controls then files.controls[r.id] else Control(false, false);
      Some(Operation(r.id, r.phase, r.stage, c.cancelRequested, c.dismissed))
  }

  /** The files after `count` of the two writes; the control record is not written while it says nothing. */
  function Persisted(files: Files, op: Operation, count: nat): Files {
    var controls :=
      if count > 0 && (op.cancelRequested || op.dismissed)
        then files.controls[op.id := Control(op.cancelRequested, op.dismissed)]
      else files.controls;
    Files(if count > 1 then Some(Record(op.id, op.phase, op.stage)) else files.main, controls)
  }

  /** What a cancellation of the operation makes of it; none when it is refused. */
  function CancelOf(op: Operation): Option<Operation> {
    if op.phase.Waiting? then Some(op.(phase := Canceled))
    else if op.phase.Canceled? then Some(op)
    else if op.phase.Applying? && BeforeCutoff(op.stage) then Some(op.(cancelRequested := true))
    else None
  }

  function DismissOf(op: Operation): Option<Operation> {
    if op.phase.Failed? || op.phase.Canceled? || op.phase.Applied? then Some(op.(dismissed := true)) else None
  }

  /** A request is turned down only by an operation that is still pending. */
  predicate Admits(files: Files) {
    files.main.None?
    || (Read(files).Some? && var phase := Read(files).value.phase; phase.Applied? || phase.Canceled? || phase.Failed?)
  }

  /** The worker's copy, with a cancellation that came in the meantime. */
  function Merged(files: Files, memory: Operation): Operation {
    memory.(cancelRequested := memory.cancelRequested || Flagged(files, memory.id))
  }

  /** The stored operation is the one the worker is running. */
  predicate Current(files: Files, id: Id) {
    Read(files).Some? && Read(files).value.id == id
  }

  predicate MayBegin(files: Files, id: Id) {
    && Current(files, id) && !Read(files).value.cancelRequested
    && Read(files).value.phase.Applying? && Read(files).value.stage.Preparing?
  }

  /** The stored operation still waits or was canceled before, or it is running and has closed no thread. */
  predicate Cancelable(main: Option<Record>, id: Id) {
    && main.Some? && main.value.id == id
    && (main.value.phase in {Waiting, Canceled} ||
        (main.value.phase == Applying && main.value.stage in {Quiescing, Preparing}))
  }

  datatype Written = Declined | Partly | Done

  class Host {
    var main: Option<Record>
    var controls: map<Id, Control>

    function Contents(): Files
      reads this
    {
      Files(main, controls)
    }

    /** provider_write_state: the control record first. A failed or interrupted write stops after some of the two. */
    method WriteState(op: Operation) returns (ok: bool, ghost count: nat)
      modifies this
      ensures count <= 2 && Contents() == Persisted(old(Contents()), op, count)
      ensures ok ==> count == 2
    {
      var interrupted: nat := *;
      count := 0;
      if interrupted == 0 {
        return false, count;
      }
      count := 1;
      if op.cancelRequested || op.dismissed {
        controls := controls[op.id := Control(op.cancelRequested, op.dismissed)];
      }
      if interrupted == 1 {
        return false, count;
      }
      count := 2;
      main := Some(Record(op.id, op.phase, op.stage));
      ok := interrupted != 2;
    }

    /** provider_control: accept a cancellation only while no thread can have been closed. */
    method Cancel(id: Id) returns (result: Written, ghost count: nat)
      modifies this
      ensures result.Declined? <==> !Current(old(Contents()), id) || CancelOf(Read(old(Contents())).value).None?
      ensures result.Declined? <==> !Cancelable(old(main), id)
      ensures result.Declined? ==> Contents() == old(Contents())
      ensures result.Done? ==> main.Some? && main == Some(old(main).value.(phase := main.value.phase))
      ensures result.Done? ==>
        if old(main).value.phase == Applying then main.value.phase == Applying && Flagged(Contents(), id)
        else main.value.phase == Canceled
      ensures forall other :: other != id ==>
        && (other in controls <==> other in old(controls))
        && (other in controls ==> controls[other] == old(controls)[other])
      ensures !result.Declined? ==>
        Contents() == Persisted(old(Contents()), CancelOf(Read(old(Contents())).value).value, count)
      ensures result.Done? ==> count == 2
    {
      count := 0;
      var read := Read(Contents());
      if read.None? || read.value.id != id || CancelOf(read.value).None? {
        return Declined, count;
      }
      var ok;
      ok, count := WriteState(CancelOf(read.value).value);
      result := if ok then Done else Partly;
    }

    /** provider_scoped_write_state: the worker's copy never drops a cancellation it has not seen. */
    method ScopedWrite(memory: Operation, expected: Option<Phase>)
      returns (result: Written, merged: Operation, ghost count: nat)
      modifies this
      ensures result.Declined? <==>
                || !Current(old(Contents()), memory.id)
                || (expected.Some? && Read(old(Contents())).value.phase != expected.value)
      ensures result.Declined? ==> Contents() == old(Contents()) && merged == memory
      ensures !result.Declined? ==>
        merged == Merged(old(Contents()), memory) && Contents() == Persisted(old(Contents()), merged, count)
      ensures !result.Declined? ==>
        && merged == memory.(cancelRequested := merged.cancelRequested)
        && (merged.cancelRequested <==> memory.cancelRequested || Flagged(old(Contents()), memory.id))
      ensures result.Done? ==> count == 2
    {
      count := 0;
      merged := memory;
      var read := Read(Contents());
      if read.None? || read.value.id != memory.id || (expected.Some? && read.value.phase != expected.value) {
        return Declined, merged, count;
      }
      if read.value.cancelRequested {
        merged := memory.(cancelRequested := true);
      }
      var ok;
      ok, count := WriteState(merged);
      result := if ok then Done else Partly;
    }

    /** provider_scoped_begin_switch!: the cutoff. The copy says `switching` before the files do. */
    method BeginSwitch(memory: Operation) returns (result: Written, switched: Operation, ghost count: nat)
      modifies this
      ensures result.Declined? <==> !MayBegin(old(Contents()), memory.id)
      ensures result.Declined? <==>
        !(old(main) == Some(Record(memory.id, Applying, Preparing)) && !Flagged(old(Contents()), memory.id))
      ensures result.Declined? ==> Contents() == old(Contents()) && switched == memory
      ensures !result.Declined? ==>
        switched == memory.(stage := Switching) && Contents() == Persisted(old(Contents()), switched, count)
      ensures result.Done? ==> count == 2
    {
      count := 0;
      switched := memory;
      if !MayBegin(Contents(), memory.id) {
        return Declined, switched, count;
      }
      switched := memory.(stage := Switching);
      var ok;
      ok, count := WriteState(switched);
      result := if ok then Done else Partly;
    }
  }

  // ---------------------------------------------------------------- interleaved runs

  /** Where the one worker stands; every other state is lost when it dies. */
  datatype Worker =
    | Off
    | Working(op: Operation)
    | Raised(op: Operation, canceled: bool)   // an error is being handled
    | Judged(op: Operation, canceled: bool)   // it is known whether the error was a cancellation
    | Closing(op: Operation)                  // a failure is stored; its last message is not

  /** Everything that lasts, with what ever happened to each operation. */
  datatype World = World(
    files: Files,
    receipts: set<Id>,
    worker: Worker,
    accepted: set<Id>,   // a cancellation of it was stored
    switched: set<Id>)   // the stage `switching` was stored for it

  datatype Choice = Wait | Refuse | Proceed

  /** One locked section or one local step; `count` is how many of its writes succeeded. */
  datatype Event =
    | Request(id: Id, same: bool, count: nat)
    | Cancel(id: Id, count: nat)
    | Dismiss(id: Id, count: nat)
    | Recover(count: nat)
    | PackageWait(count: nat)
    | Touch(count: nat)
    | Start
    | Check
    | Save(choice: Choice, count: nat, raises: bool)
    | Begin(count: nat, raises: bool)
    | Fail
    | Judge
    | Finish(count: nat)
    | Close(count: nat)
    | Die

  /** Store what the section made of the operation, and remember what it meant. */
  function Stored(w: World, op: Operation, count: nat): (r: World)
    ensures r.files == Persisted(w.files, op, count) && r.worker == w.worker && r.accepted == w.accepted
  {
    w.(files := Persisted(w.files, op, count),
       switched := if count > 1 && op.stage.Switching? then w.switched + {op.id} else w.switched)
  }

  /** A section of another process: read, change, store. */
  function Section(w: World, change: Option<Operation>, count: nat): World {
    if change.None? then w else Stored(w, change.value, count)
  }

  function CancelStep(w: World, id: Id, count: nat): World {
    if !Current(w.files, id) || CancelOf(Read(w.files).value).None? then w
    else
      var change := CancelOf(Read(w.files).value).value;
      var after := Stored(w, change, count);
      after.(accepted := if count > 1 || (count == 1 && change.cancelRequested) then w.accepted + {id} else w.accepted)
  }

  function RequestStep(w: World, id: Id, same: bool, count: nat): World {
    if id in w.receipts || !Admits(w.files) || count < 2 then w
    else
      var op := Operation(id, if same then Applied else Waiting, Accepted, false, false);
      Stored(w, op, count).(receipts := w.receipts + {id})
  }

  function RecoverOf(op: Operation): Option<Operation> {
    if op.phase.RecoveryRequired? then Some(op.(phase := Applying)) else None
  }

  function PackageWaitOf(op: Operation): Option<Operation> {
    if op.phase.Waiting? then Some(op.(stage := WaitingPackage)) else None
  }

  /** The change of its copy that the worker stores next, and whether it returns after it. */
  function Advance(op: Operation, choice: Choice): Option<(Operation, bool)> {
    if op.phase.Waiting? then
      match choice
      case Wait => Some((op.(stage := WaitingCreation), true))
      case Refuse => Some((op.(phase := Failed), true))
      case Proceed => Some((op.(phase := Applying, stage := Quiescing), false))
    else match op.stage
      case Quiescing => Some((op.(stage := Preparing), false))
      case Switching => Some((op.(stage := Resuming), false))
      case Resuming => Some((op.(stage := Restoring), false))
      case Restoring => Some((op.(phase := Applied), true))
      case _ => None
  }

  function SaveStep(w: World, choice: Choice, count: nat, raises: bool): World
    requires w.worker.Working?
  {
    var step := Advance(w.worker.op, choice);
    if step.None? then w
    else
      var memory := step.value.0;
      if !Current(w.files, memory.id) then w.(worker := Raised(memory, false))
      else if w.worker.op.phase.Waiting? && !Read(w.files).value.phase.Waiting? then w.(worker := Off)
      else
        var merged := Merged(w.files, memory);
        var next := if count < 2 || raises then Raised(merged, false) else if step.value.1 then Off
          else Working(merged);
        Stored(w, merged, count).(worker := next)
  }

  function BeginStep(w: World, count: nat, raises: bool): World
    requires w.worker.Working?
  {
    var op := w.worker.op;
    if op.phase.Waiting? || !op.stage.Preparing? then w
    else if !MayBegin(w.files, op.id) then
      w.(worker := Raised(op, Current(w.files, op.id) && Read(w.files).value.cancelRequested))
    else
      var memory := op.(stage := Switching);
      Stored(w, memory, count).(worker := if count < 2 || raises then Raised(memory, false) else Working(memory))
  }

  function CheckStep(w: World): World
    requires w.worker.Working?
  {
    var op := w.worker.op;
    if op.phase.Waiting? || !BeforeCutoff(op.stage) then w
    else if !Current(w.files, op.id) then w.(worker := Raised(op, false))
    else if Read(w.files).value.cancelRequested || Read(w.files).value.phase.Canceled?
      then w.(worker := Raised(op, true))
    else w
  }

  /** The rescue looks once more for a cancellation, but only before the cutoff. */
  function JudgeStep(w: World): World
    requires w.worker.Raised?
  {
    var op := w.worker.op;
    if w.worker.canceled || !BeforeCutoff(op.stage) then w.(worker := Judged(op, w.worker.canceled))
    else if Read(w.files).None? then w.(worker := Off)
    else w.(worker := Judged(op, Current(w.files, op.id) && Read(w.files).value.cancelRequested))
  }

  /** How an error ends: canceled, failed before the cutoff, or left for recovery. */
  function Verdict(op: Operation, canceled: bool): Phase {
    if canceled then Canceled else if BeforeCutoff(op.stage) then Failed else RecoveryRequired
  }

  function FinishStep(w: World, count: nat): World
    requires w.worker.Judged?
  {
    var memory := w.worker.op.(phase := Verdict(w.worker.op, w.worker.canceled));
    if !Current(w.files, memory.id) then w.(worker := Off)
    else
      var merged := Merged(w.files, memory);
      Stored(w, merged, count).(worker := if count > 1 && memory.phase.Failed? then Closing(merged) else Off)
  }

  function CloseStep(w: World, count: nat): World
    requires w.worker.Closing?
  {
    if !Current(w.files, w.worker.op.id) then w.(worker := Off)
    else Stored(w, Merged(w.files, w.worker.op), count).(worker := Off)
  }

  function StartStep(w: World): World {
    if w.worker.Off? && Read(w.files).Some? &&
       (Read(w.files).value.phase.Waiting? || Read(w.files).value.phase.Applying?)
    then w.(worker := Working(Read(w.files).value)) else w
  }

  /** Events that cannot happen now change nothing. */
  function Next(w: World, e: Event): World {
    match e
    case Request(id, same, count) => RequestStep(w, id, same, count)
    case Cancel(id, count) => CancelStep(w, id, count)
    case Dismiss(id, count) => if Current(w.files, id) then Section(w, DismissOf(Read(w.files).value), count) else w
    case Recover(count) => if Read(w.files).Some? then Section(w, RecoverOf(Read(w.files).value), count) else w
    case PackageWait(count) => if Read(w.files).Some? then Section(w, PackageWaitOf(Read(w.files).value), count) else w
    case Touch(count) => Section(w, Read(w.files), count)
    case Start => StartStep(w)
    case Check => if w.worker.Working? then CheckStep(w) else w
    case Save(choice, count, raises) => if w.worker.Working? then SaveStep(w, choice, count, raises) else w
    case Begin(count, raises) => if w.worker.Working? then BeginStep(w, count, raises) else w
    case Fail => if w.worker.Working? then w.(worker := Raised(w.worker.op, false)) else w
    case Judge => if w.worker.Raised? then JudgeStep(w) else w
    case Finish(count) => if w.worker.Judged? then FinishStep(w, count) else w
    case Close(count) => if w.worker.Closing? then CloseStep(w, count) else w
    case Die => w.(worker := Off)
  }

  function Run(w: World, events: seq<Event>): World {
    if events == [] then w else Next(Run(w, events[..|events| - 1]), events[|events| - 1])
  }

  const INITIAL := World(Files(None, map[]), {}, Off, {}, {})

  // ---------------------------------------------------------------- what holds

  /** No operation is both canceled and switched. */
  predicate Exclusive(w: World) {
    w.accepted !! w.switched
  }

  predicate Known(w: World) {
    && (w.files.main.Some? ==> w.files.main.value.id in w.receipts)
    && w.files.controls.Keys <= w.receipts && w.accepted <= w.receipts && w.switched <= w.receipts
    && (!w.worker.Off? ==> w.worker.op.id in w.receipts)
  }

  /** The stored stage tells whether the operation ever switched, and a cancellation stops it. */
  predicate StoredRight(w: World) {
    && (forall id :: id in w.files.controls && w.files.controls[id].cancelRequested ==> id in w.accepted)
    && (w.files.main.Some? ==>
          var r := w.files.main.value;
          && (Late(r.stage) <==> r.id in w.switched)
          && (r.phase.Waiting? ==> Early(r.stage))
          && (Late(r.stage) ==> r.phase.Applying? || r.phase.RecoveryRequired? || r.phase.Applied?)
          && (r.id in w.accepted ==>
                Flagged(w.files, r.id) || r.phase.Canceled? || r.phase.Failed? || !Readable(r)))
  }

  /** The worker's copy is never behind the files. */
  predicate CopyRight(w: World) {
    !w.worker.Off? ==>
      var op := w.worker.op;
      && (op.cancelRequested ==> op.id in w.accepted)
      && (w.files.main.Some? && w.files.main.value.id == op.id && Late(w.files.main.value.stage) ==> Late(op.stage))
      && (Late(op.stage) ==> op.id in w.switched || (op.stage.Switching? && (w.worker.Raised? || w.worker.Judged?)))
      && ((w.worker.Raised? || w.worker.Judged?) && w.worker.canceled ==> BeforeCutoff(op.stage))
      && (w.worker.Closing? ==> BeforeCutoff(op.stage) && op.phase.Failed?)
      && (w.worker.Working? ==> op.phase.Waiting? || op.phase.Applying?)
      && (w.worker.Working? && op.phase.Applying? && Current(w.files, op.id) ==> w.files.main.value.phase.Applying?)
      && (op.phase.Waiting? ==> Early(op.stage))
      && (op.phase.Failed? ==> !Late(op.stage))
  }

  predicate Inv(w: World) {
    Exclusive(w) && Known(w) && StoredRight(w) && CopyRight(w)
  }

  /**
   The write of the cutoff failed, a cancellation was accepted before the error was handled, and handling it stores
   `switching`.
   */
  predicate Slips(w: World, e: Event) {
    && e.Finish? && e.count > 1 && w.worker.Judged?
    && w.worker.op.stage.Switching? && Current(w.files, w.worker.op.id) && w.worker.op.id in w.accepted
  }

  lemma CancelKeeps(w: World, id: Id, count: nat)
    requires Inv(w)
    ensures Inv(CancelStep(w, id, count))
  {
  }

  lemma RequestKeeps(w: World, id: Id, same: bool, count: nat)
    requires Inv(w)
    ensures Inv(RequestStep(w, id, same, count))
  {
  }

  lemma SectionKeeps(w: World, e: Event)
    requires Inv(w) && (e.Dismiss? || e.Recover? || e.PackageWait? || e.Touch?)
    ensures Inv(Next(w, e))
  {
  }

  lemma WaitingSaveKeeps(w: World, choice: Choice, count: nat, raises: bool)
    requires Inv(w) && w.worker.Working? && w.worker.op.phase.Waiting? && !choice.Proceed?
    ensures Inv(SaveStep(w, choice, count, raises))
  {
  }

  lemma AdmissionSaveKeeps(w: World, count: nat, raises: bool)
    requires Inv(w) && w.worker.Working? && w.worker.op.phase.Waiting?
    ensures Inv(SaveStep(w, Proceed, count, raises))
  {
  }

  lemma PreparingSaveKeeps(w: World, choice: Choice, count: nat, raises: bool)
    requires Inv(w) && w.worker.Working? && !w.worker.op.phase.Waiting? && w.worker.op.stage.Quiescing?
    ensures Inv(SaveStep(w, choice, count, raises))
  {
  }

  lemma LateSaveKeeps(w: World, choice: Choice, count: nat, raises: bool)
    requires Inv(w) && w.worker.Working? && !w.worker.op.phase.Waiting? && !w.worker.op.stage.Quiescing?
    ensures Inv(SaveStep(w, choice, count, raises))
  {
  }

  lemma BeginKeeps(w: World, count: nat, raises: bool)
    requires Inv(w) && w.worker.Working?
    ensures Inv(BeginStep(w, count, raises))
  {
  }

  lemma LocalKeeps(w: World, e: Event)
    requires Inv(w) && (e.Start? || e.Check? || e.Fail? || e.Judge? || e.Die?)
    ensures Inv(Next(w, e))
  {
  }

  lemma FinishKeeps(w: World, count: nat)
    requires Inv(w) && w.worker.Judged? && !Slips(w, Finish(count))
    ensures Inv(FinishStep(w, count))
  {
  }

  lemma CloseKeeps(w: World, count: nat)
    requires Inv(w) && w.worker.Closing?
    ensures Inv(CloseStep(w, count))
  {
  }

  lemma StepKeeps(w: World, e: Event)
    requires Inv(w) && !Slips(w, e)
    ensures Inv(Next(w, e))
  {
    hide Inv, Exclusive, Known, StoredRight, CopyRight, Slips, RequestStep, CancelStep, SaveStep, BeginStep, FinishStep,
      CloseStep;
    match e
    case Request(id, same, count) => RequestKeeps(w, id, same, count);
    case Cancel(id, count) => CancelKeeps(w, id, count);
    case Save(choice, count, raises) =>
      if w.worker.Working? {
        if w.worker.op.phase.Waiting? {
          if choice.Proceed? {
            AdmissionSaveKeeps(w, count, raises);
          } else {
            WaitingSaveKeeps(w, choice, count, raises);
          }
        } else if w.worker.op.stage.Quiescing? {
          PreparingSaveKeeps(w, choice, count, raises);
        } else {
          LateSaveKeeps(w, choice, count, raises);
        }
      }
    case Begin(count, raises) => if w.worker.Working? { BeginKeeps(w, count, raises); }
    case Finish(count) => if w.worker.Judged? { FinishKeeps(w, count); }
    case Close(count) => if w.worker.Closing? { CloseKeeps(w, count); }
    case Dismiss(_, _) => SectionKeeps(w, e);
    case Recover(_) => SectionKeeps(w, e);
    case PackageWait(_) => SectionKeeps(w, e);
    case Touch(_) => SectionKeeps(w, e);
    case _ => LocalKeeps(w, e);
  }

  // ---------------------------------------------------------------- main results

  /** The exact step that lets an accepted cancellation and a switch meet. */
  lemma CutoffExact(w: World, e: Event)
    requires Inv(w)
    ensures Exclusive(Next(w, e)) <==> !Slips(w, e)
  {
    if Slips(w, e) {
      var id := w.worker.op.id;
      assert id in Next(w, e).accepted && id in Next(w, e).switched;
    } else {
      StepKeeps(w, e);
    }
  }

  ghost predicate NeverSlips(events: seq<Event>) {
    forall k :: 0 <= k < |events| ==> !Slips(Run(INITIAL, events[..k]), events[k])
  }

  /** Over any interleaving, with crashes anywhere, no operation is both canceled and switched. */
  lemma {:induction false} CutoffHolds(events: seq<Event>)
    requires NeverSlips(events)
    ensures Inv(Run(INITIAL, events)) && Exclusive(Run(INITIAL, events))
  {
    if events != [] {
      var n := |events| - 1;
      var shorter := events[..n];
      forall k | 0 <= k < |shorter| ensures !Slips(Run(INITIAL, shorter[..k]), shorter[k]) {
        assert shorter[..k] == events[..k];
      }
      CutoffHolds(shorter);
      assert !Slips(Run(INITIAL, events[..n]), events[n]);
      StepKeeps(Run(INITIAL, shorter), events[n]);
    }
  }

  /** Once `switching` has been stored, a cancellation of the operation is refused. */
  lemma NoneAfterCutoff(w: World, id: Id, count: nat)
    requires Inv(w) && id in w.switched
    ensures Next(w, Cancel(id, count)) == w
  {
  }

  /** No write, whoever makes it and however far it gets, takes the flag of a cancellation back. */
  lemma RequestNeverLost(w: World, e: Event, id: Id)
    requires Flagged(w.files, id)
    ensures Flagged(Next(w, e).files, id)
  {
  }

  lemma {:induction false} RequestNeverLostThroughout(w: World, events: seq<Event>, id: Id)
    requires Flagged(w.files, id)
    ensures Flagged(Run(w, events).files, id)
  {
    if events != [] {
      RequestNeverLostThroughout(w, events[..|events| - 1], id);
      RequestNeverLost(Run(w, events[..|events| - 1]), events[|events| - 1], id);
    }
  }

  // ---------------------------------------------------------------- what becomes of accepted cancellations

  /** A cancellation is stored as a flag while the operation is applied, and as its phase while it waits. */
  predicate StoredCancel(files: Files, id: Id) {
    Flagged(files, id) || (files.main.Some? && files.main.value.id == id && files.main.value.phase.Canceled?)
  }

  /** It is stored, or a later operation has taken the place of the canceled one. */
  predicate Standing(files: Files, id: Id) {
    StoredCancel(files, id) || (files.main.Some? && files.main.value.id != id)
  }

  predicate AllStand(w: World) {
    forall id :: id in w.accepted ==> Standing(w.files, id)
  }

  /** What is known about cancellations in every world, also after a slip. */
  predicate Traced(w: World) {
    && Known(w)
    && (forall id :: id in w.files.controls && w.files.controls[id].cancelRequested ==> id in w.accepted)
    && (w.files.main.Some? && w.files.main.value.phase.Canceled? ==> w.files.main.value.id in w.accepted)
    && WorkerTraced(w)
  }

  predicate WorkerTraced(w: World) {
    !w.worker.Off? ==>
      var op := w.worker.op;
      && (op.cancelRequested ==> op.id in w.accepted)
      && ((w.worker.Raised? || w.worker.Judged?) && w.worker.canceled ==> op.id in w.accepted)
      && (w.worker.Working? ==> op.phase.Waiting? || op.phase.Applying?)
      && (w.worker.Working? && op.phase.Applying? && Current(w.files, op.id) ==> w.files.main.value.phase.Applying?)
      && (w.worker.Closing? ==> op.phase.Failed?)
      && (w.worker.Closing? && Current(w.files, op.id) ==> w.files.main.value.phase.Failed?)
  }

  /**
   The operation was canceled while it waited, and the worker, whose error had nothing to do with that, stores its own
   copy over it: the write at the end of an error expects no phase.
   */
  predicate Loses(w: World, e: Event) {
    && e.Finish? && e.count > 1 && w.worker.Judged? && !w.worker.canceled && !w.worker.op.cancelRequested
    && w.files.main.Some? && w.files.main.value.id == w.worker.op.id && w.files.main.value.phase.Canceled?
    && !Flagged(w.files, w.worker.op.id)
  }

  lemma SavedTraced(w: World, choice: Choice, count: nat, raises: bool)
    requires Traced(w) && w.worker.Working?
    ensures Traced(SaveStep(w, choice, count, raises))
  {
  }

  lemma BegunTraced(w: World, count: nat, raises: bool)
    requires Traced(w) && w.worker.Working?
    ensures Traced(BeginStep(w, count, raises))
  {
  }

  lemma FinishedTraced(w: World, e: Event)
    requires Traced(w) && (e.Finish? || e.Close?)
    ensures Traced(Next(w, e))
  {
  }

  lemma CanceledTraced(w: World, id: Id, count: nat)
    requires Traced(w)
    ensures Traced(CancelStep(w, id, count))
  {
  }

  lemma RequestedTraced(w: World, id: Id, same: bool, count: nat)
    requires Traced(w)
    ensures Traced(RequestStep(w, id, same, count))
  {
  }

  lemma SectionTraced(w: World, e: Event)
    requires Traced(w) && (e.Dismiss? || e.Recover? || e.PackageWait? || e.Touch?)
    ensures Traced(Next(w, e))
  {
  }

  lemma LocalTraced(w: World, e: Event)
    requires Traced(w) && (e.Start? || e.Check? || e.Fail? || e.Judge? || e.Die?)
    ensures Traced(Next(w, e))
  {
  }

  lemma TracedAgain(w: World, e: Event)
    requires Traced(w)
    ensures Traced(Next(w, e))
  {
    hide Traced, RequestStep, CancelStep, SaveStep, BeginStep, FinishStep, CloseStep;
    match e
    case Request(id, same, count) => RequestedTraced(w, id, same, count);
    case Cancel(id, count) => CanceledTraced(w, id, count);
    case Save(choice, count, raises) => if w.worker.Working? { SavedTraced(w, choice, count, raises); }
    case Begin(count, raises) => if w.worker.Working? { BegunTraced(w, count, raises); }
    case Finish(_) => FinishedTraced(w, e);
    case Close(_) => FinishedTraced(w, e);
    case Dismiss(_, _) => SectionTraced(w, e);
    case Recover(_) => SectionTraced(w, e);
    case PackageWait(_) => SectionTraced(w, e);
    case Touch(_) => SectionTraced(w, e);
    case _ => LocalTraced(w, e);
  }

  /** The exact step that takes an accepted cancellation back. */
  lemma StandingExact(w: World, e: Event)
    requires Traced(w) && AllStand(w)
    ensures AllStand(Next(w, e)) <==> !Loses(w, e)
  {
  }

  lemma {:induction false} RunTraced(events: seq<Event>)
    ensures Traced(Run(INITIAL, events))
  {
    hide Next;
    if events == [] {
      assert Traced(INITIAL);
    } else {
      RunTraced(events[..|events| - 1]);
      TracedAgain(Run(INITIAL, events[..|events| - 1]), events[|events| - 1]);
    }
  }

  ghost predicate NeverLoses(events: seq<Event>) {
    forall k :: 0 <= k < |events| ==> !Loses(Run(INITIAL, events[..k]), events[k])
  }

  /** After every event of a run, each accepted cancellation is stored or its operation has been replaced. */
  ghost predicate StandThroughout(events: seq<Event>) {
    forall k :: 0 <= k <= |events| ==> AllStand(Run(INITIAL, events[..k]))
  }

  lemma {:induction false} StandingPrefix(events: seq<Event>, k: nat)
    requires k <= |events| && forall i :: 0 <= i < k ==> !Loses(Run(INITIAL, events[..i]), events[i])
    ensures AllStand(Run(INITIAL, events[..k]))
  {
    hide Next, Loses, Standing, Traced;
    if k == 0 {
      assert Run(INITIAL, events[..0]) == INITIAL;
    } else {
      StandingPrefix(events, k - 1);
      assert events[..k] == events[..k - 1] + [events[k - 1]];
      RunAlso(INITIAL, events[..k - 1], events[k - 1]);
      RunTraced(events[..k - 1]);
      StandingExact(Run(INITIAL, events[..k - 1]), events[k - 1]);
    }
  }

  /** Accepted cancellations stand through a whole run, with crashes anywhere, exactly when no step of it loses one. */
  lemma CancellationsStand(events: seq<Event>)
    ensures StandThroughout(events) <==> NeverLoses(events)
  {
    hide Next, Loses, Standing, Traced, AllStand;
    if NeverLoses(events) {
      forall k | 0 <= k <= |events| ensures AllStand(Run(INITIAL, events[..k])) {
        StandingPrefix(events, k);
      }
    }
    if StandThroughout(events) {
      forall k | 0 <= k < |events| ensures !Loses(Run(INITIAL, events[..k]), events[k]) {
        assert events[..k + 1] == events[..k] + [events[k]];
        RunAlso(INITIAL, events[..k], events[k]);
        RunTraced(events[..k]);
        StandingExact(Run(INITIAL, events[..k]), events[k]);
      }
    }
  }

  /** An accepted cancellation is stored and ends the operation before any thread is closed. */
  lemma AcceptedStopsSwitch(events: seq<Event>, id: Id, more: seq<Event>)
    requires NeverSlips(events + more)
    requires id in Run(INITIAL, events).accepted
    ensures id !in Run(INITIAL, events + more).switched
  {
    CutoffHolds(events + more);
    AcceptedStays(events, more, id);
  }

  lemma {:induction false} AcceptedStays(events: seq<Event>, more: seq<Event>, id: Id)
    requires id in Run(INITIAL, events).accepted
    ensures id in Run(INITIAL, events + more).accepted
  {
    if more == [] {
      assert events + more == events;
    } else {
      var all := events + more;
      assert all[..|all| - 1] == events + more[..|more| - 1];
      AcceptedStays(events, more[..|more| - 1], id);
      AcceptedGrows(Run(INITIAL, all[..|all| - 1]), all[|all| - 1]);
    }
  }

  lemma AcceptedGrows(w: World, e: Event)
    ensures w.accepted <= Next(w, e).accepted
  {
  }

  // ---------------------------------------------------------------- three defects

  lemma RunNothing(w: World)
    ensures Run(w, []) == w
  {
  }

  lemma {:induction false} RunAlso(w: World, events: seq<Event>, e: Event)
    ensures Run(w, events + [e]) == Next(Run(w, events), e)
  {
    assert (events + [e])[..|events|] == events;
  }

  /**
   From any worker about to switch: the write at the cutoff fails before the main record, a
   cancellation is accepted, and the worker then stores its copy, which already says `switching`.
   */
  lemma CancellationBypassed(w: World)
    requires Inv(w) && w.worker.Working? && w.worker.op.phase.Applying? && w.worker.op.stage.Preparing?
    requires MayBegin(w.files, w.worker.op.id)
    ensures Slips(Next(Next(Next(w, Begin(0, true)), Judge), Cancel(w.worker.op.id, 2)), Finish(2))
    ensures !Exclusive(Next(Next(Next(Next(w, Begin(0, true)), Judge), Cancel(w.worker.op.id, 2)), Finish(2)))
  {
    var id := w.worker.op.id;
    var w1 := Next(Next(w, Begin(0, true)), Judge);
    assert w1.files == w.files && w1.worker == Judged(w.worker.op.(stage := Switching), false);
    var w2 := Next(w1, Cancel(id, 2));
    assert id in w2.accepted && w2.worker == w1.worker && Current(w2.files, id);
    assert id in Next(w2, Finish(2)).switched;
  }

  const OPENING := [Request(1, false, 2), Start, Save(Proceed, 2, false), Save(Proceed, 2, false)]

  lemma OpeningPrepares()
    ensures var w := Next(Next(Next(Next(INITIAL, OPENING[0]), OPENING[1]), OPENING[2]), OPENING[3]);
      w.worker == Working(Operation(1, Applying, Preparing, false, false)) && MayBegin(w.files, 1)
  {
    var w := Next(Next(INITIAL, OPENING[0]), OPENING[1]);
    assert w.worker == Working(Operation(1, Waiting, Accepted, false, false));
    assert w.files == Files(Some(Record(1, Waiting, Accepted)), map[]);
  }

  /** A worker does get there. */
  lemma PreparingIsReached()
    ensures NeverSlips(OPENING)
    ensures Run(INITIAL, OPENING).worker == Working(Operation(1, Applying, Preparing, false, false))
    ensures MayBegin(Run(INITIAL, OPENING).files, 1)
  {
    hide Next, Run, MayBegin;
    OpeningPrepares();
    RunNothing(INITIAL);
    RunAlso(INITIAL, [], OPENING[0]);
    RunAlso(INITIAL, [] + [OPENING[0]], OPENING[1]);
    RunAlso(INITIAL, [] + [OPENING[0]] + [OPENING[1]], OPENING[2]);
    RunAlso(INITIAL, [] + [OPENING[0]] + [OPENING[1]] + [OPENING[2]], OPENING[3]);
    assert OPENING == [] + [OPENING[0]] + [OPENING[1]] + [OPENING[2]] + [OPENING[3]];
  }

  const STARTED := [Request(1, false, 2), Start]

  lemma StartedWorks()
    ensures Run(INITIAL, STARTED) == World(Files(Some(Record(1, Waiting, Accepted)), map[]), {1},
              Working(Operation(1, Waiting, Accepted, false, false)), {}, {})
  {
    RunNothing(INITIAL);
    RunAlso(INITIAL, [], STARTED[0]);
    RunAlso(INITIAL, [] + [STARTED[0]], STARTED[1]);
    assert STARTED == [] + [STARTED[0]] + [STARTED[1]];
  }

  /** Four more events. */
  lemma RunFour(events: seq<Event>, a: Event, b: Event, c: Event, d: Event)
    ensures Run(INITIAL, events + [a, b, c]) == Next(Next(Next(Run(INITIAL, events), a), b), c)
    ensures Run(INITIAL, events + [a, b, c, d]) == Next(Run(INITIAL, events + [a, b, c]), d)
  {
    hide Next, Run;
    RunAlso(INITIAL, events, a);
    RunAlso(INITIAL, events + [a], b);
    RunAlso(INITIAL, events + [a] + [b], c);
    RunAlso(INITIAL, events + [a] + [b] + [c], d);
    assert events + [a, b, c] == events + [a] + [b] + [c];
    assert events + [a, b, c, d] == events + [a] + [b] + [c] + [d];
  }

  /** A judged worker holds a copy that knows nothing of the cancellation that comes next. */
  function Ignorant(phase: Phase, stage: Stage): World {
    World(Files(Some(Record(1, Waiting, Accepted)), map[]), {1},
      Judged(Operation(1, phase, stage, false, false), false), {}, {})
  }

  lemma IgnorantOverwrites(phase: Phase, stage: Stage)
    ensures var before := Next(Ignorant(phase, stage), Cancel(1, 2));
      && 1 in before.accepted && before.files.main == Some(Record(1, Canceled, Accepted))
      && Next(before, Finish(2)).files ==
         Files(Some(Record(1, if BeforeCutoff(stage) then Failed else RecoveryRequired, stage)), map[])
  {
  }

  /** The admission could not be written, the waiting operation is canceled, and the worker stores its failure. */
  lemma CancellationFails()
    ensures var before, after := Run(INITIAL, STARTED + [Save(Proceed, 0, true), Judge, Cancel(1, 2)]),
                                 Run(INITIAL, STARTED + [Save(Proceed, 0, true), Judge, Cancel(1, 2), Finish(2)]);
      && 1 in before.accepted && before.files.main == Some(Record(1, Canceled, Accepted))
      && after.files.main == Some(Record(1, Failed, Quiescing)) && !Standing(after.files, 1)
  {
    StartedWorks();
    RunFour(STARTED, Save(Proceed, 0, true), Judge, Cancel(1, 2), Finish(2));
    hide Run;
    var w := Next(Next(Run(INITIAL, STARTED), Save(Proceed, 0, true)), Judge);
    assert w == Ignorant(Applying, Quiescing);
    hide Next, Ignorant;
    IgnorantOverwrites(Applying, Quiescing);
  }

  /** The same with an error before the admission: what replaces the cancellation cannot even be read. */
  lemma CancellationUnreadable()
    ensures var before, after := Run(INITIAL, STARTED + [Fail, Judge, Cancel(1, 2)]),
                                 Run(INITIAL, STARTED + [Fail, Judge, Cancel(1, 2), Finish(2)]);
      && 1 in before.accepted && before.files.main == Some(Record(1, Canceled, Accepted))
      && after.files.main == Some(Record(1, RecoveryRequired, Accepted)) && !Standing(after.files, 1)
      && Read(after.files).None?
  {
    StartedWorks();
    RunFour(STARTED, Fail, Judge, Cancel(1, 2), Finish(2));
    hide Run;
    var w := Next(Next(Run(INITIAL, STARTED), Fail), Judge);
    assert w == Ignorant(Waiting, Accepted);
    hide Next, Ignorant;
    IgnorantOverwrites(Waiting, Accepted);
  }

  /** An error before admission leaves a state that its own reader refuses. */
  lemma UnreadableIsReached()
    ensures var w := Run(INITIAL, STARTED + [Fail, Judge, Finish(2)]);
      w.files.main == Some(Record(1, RecoveryRequired, Accepted)) && Read(w.files).None?
  {
    StartedWorks();
    RunFour(STARTED, Fail, Judge, Finish(2), Die);
    hide Run;
    var w := Next(Next(Run(INITIAL, STARTED), Fail), Judge);
    assert w.worker == Judged(Operation(1, Waiting, Accepted, false, false), false);
    assert w.files == Files(Some(Record(1, Waiting, Accepted)), map[]);
  }

  /** An error before admission is stored as a state that its own reader refuses, and only then. */
  lemma PauseUnreadable(w: World)
    requires w.worker.Judged? && !w.worker.canceled && Current(w.files, w.worker.op.id)
    ensures Read(Next(w, Finish(2)).files).None? <==> Early(w.worker.op.stage)
  {
    var stage := w.worker.op.stage;
    assert Early(stage) || BeforeCutoff(stage) || Late(stage);
  }

  /** No section can change a state the reader refuses. */
  lemma {:induction false} UnreadableForever(w: World, events: seq<Event>)
    requires w.files.main.Some? && Read(w.files).None?
    ensures Run(w, events).files == w.files
  {
    if events != [] {
      UnreadableForever(w, events[..|events| - 1]);
      UnreadableStays(Run(w, events[..|events| - 1]), events[|events| - 1]);
    }
  }

  lemma UnreadableStays(w: World, e: Event)
    requires w.files.main.Some? && Read(w.files).None?
    ensures Next(w, e).files == w.files
  {
  }
}
