/**
 Session services (libexec/workspace-session-services.rb): transient units that a
 session launches at most once, under a marker, a registry and a cleanup intent that
 are written before the effects they announce. A command may die between any two
 effects, and the machine may reboot; the user manager goes on by itself.
 */
module SessionServices {
  import opened Wrappers

  type Id = nat

  datatype Phase = Starting | Running | Stopping | Retired

  /** `boot` is the boot in which the row was created; the invocation is known once the unit was observed. */
  datatype Row = Row(id: Id, request: Id, phase: Phase, boot: nat, invocation: Option<nat>)

  /** One unit name at the user manager. A launch may be under way before the unit is loaded. */
  datatype Unit = Unit(
    loaded: bool, job: bool, populated: bool, underway: bool, invocation: nat,
    launched: Option<nat>,     // the boot in which systemd-run was called
    launches: nat)

  const NO_UNIT := Unit(false, false, false, false, 0, None, 0)

  /** Nothing of the unit runs or will run. */
  predicate Dead(u: Unit) {
    !u.job && !u.populated && !u.underway
  }

  /** The row was created in one boot and launched in another. */
  predicate LaunchedLater(row: Row, u: Unit) {
    u.launched.Some? && u.launched.value != row.boot
  }

  // ---------------------------------------------------------------- what the manager does

  /** One unit between two commands within a boot. */
  predicate Moves(a: Unit, b: Unit) {
    && b.launched == a.launched && b.launches == a.launches
    && (Dead(a) ==> Dead(b)) && (b.underway ==> a.underway) && (a.launched.None? ==> b == a)
    && (b.job || b.populated ==> b.loaded) && (b.loaded ==> a.loaded || a.underway)
    && (a.loaded && b.loaded ==> b.invocation == a.invocation) && !(b.underway && b.loaded)
  }

  function Rebooted(u: Unit): Unit {
    u.(loaded := false, job := false, populated := false, underway := false)
  }

  // ---------------------------------------------------------------- what a command sees

  datatype View = NotFound(job: bool) | Found(terminal: bool, job: bool, invocation: nat)

  /** stopped_proof? on one observation and the state of the unit's control group. */
  predicate StoppedProof(row: Row, view: View, boot: nat, empty: bool) {
    && !view.job
    && if row.boot != boot then view.NotFound?
       else (view.NotFound? || view.terminal) && row.invocation.Some? && empty
  }

  predicate Shows(u: Unit, view: View) {
    match view
    case NotFound(job) => !u.loaded && job == u.job
    case Found(terminal, job, invocation) => u.loaded && job == u.job && invocation == u.invocation
  }

  // ---------------------------------------------------------------- the invariant

  predicate UnitSound(u: Unit, boot: nat) {
    && (u.launched.None? ==> u == NO_UNIT)
    && u.launches == (if u.launched.Some? then 1 else 0)
    && (u.underway ==> u.launched == Some(boot) && !u.loaded)
    && (u.job || u.populated ==> u.loaded)
  }

  ghost predicate RowSound(row: Row, u: Unit) {
    && (row.invocation.Some? ==> !u.underway && u.launched.Some?)
    && (row.phase.Retired? ==> Dead(u) || LaunchedLater(row, u))
  }

  function UnitOf(units: map<Id, Unit>, id: Id): Unit {
    if id in units then units[id] else NO_UNIT
  }

  predicate Registered(rows: seq<Row>, id: Id) {
    exists k :: 0 <= k < |rows| && rows[k].id == id
  }

  predicate Distinct(rows: seq<Row>) {
    forall i, k :: 0 <= i < k < |rows| ==> rows[i].id != rows[k].id
  }

  ghost predicate RowsSound(rows: seq<Row>, units: map<Id, Unit>) {
    && Distinct(rows)
    && (forall k :: 0 <= k < |rows| ==> RowSound(rows[k], UnitOf(units, rows[k].id)))
    && forall id :: id in units && units[id].launched.Some? ==> Registered(rows, id)
  }

  predicate AllRetired(rows: seq<Row>) {
    forall k :: 0 <= k < |rows| ==> rows[k].phase.Retired?
  }

  /** What a registration saves, and what becomes of a unit when systemd-run is called for it. */
  function NewRow(id: Id, request: Id, boot: nat): Row {
    Row(id, request, Starting, boot, None)
  }

  datatype Reach = Lost | Underway(invocation: nat) | Loaded(invocation: nat)

  function Called(u: Unit, boot: nat, reach: Reach): Unit {
    Unit(reach.Loaded?, reach.Loaded?, false, reach.Underway?, if reach.Lost? then 0 else reach.invocation,
      Some(boot), u.launches + 1)
  }

  /**
   A stopped unit is dead, unless its row was created before the last reboot and a launch made since is still under way;
   within one boot the proof is always right.
   */
  lemma ProofIsRight(row: Row, u: Unit, view: View, boot: nat)
    requires UnitSound(u, boot) && RowSound(row, u) && Shows(u, view) && StoppedProof(row, view, boot, !u.populated)
    ensures Dead(u) || LaunchedLater(row, u)
    ensures Dead(u) <==> !(u.underway && row.boot != boot)
    ensures row.boot == boot ==> Dead(u)
  {
  }

  /** The units that may stand behind a row when a command sees it stopped. */
  ghost predicate Behind(row: Row, view: View, boot: nat, u: Unit) {
    UnitSound(u, boot) && RowSound(row, u) && Shows(u, view) && !u.populated
  }

  /**
   What a command can tell from the row: the proof is right whatever the unit does if and only if the row was created in
   this boot or its unit was once observed.
   */
  lemma ProofExact(row: Row, view: View, boot: nat)
    requires !row.phase.Retired? && StoppedProof(row, view, boot, true)
    ensures (forall u :: Behind(row, view, boot, u) ==> Dead(u)) <==> row.boot == boot || row.invocation.Some?
  {
    if row.boot != boot && row.invocation.None? {
      var u := Called(NO_UNIT, boot, Underway(7));
      assert Behind(row, view, boot, u) && !Dead(u);
    }
  }

  /**
   The first command saves the row and dies before it may launch; the machine reboots; the second command finds the
   marker still initializing and launches. While that launch is under way the unit counts as stopped.
   */
  lemma ProofTooEarly(id: Id, request: Id, boot: nat, invocation: nat)
    ensures var row := NewRow(id, request, boot);
            var u := Called(Rebooted(NO_UNIT), boot + 1, Underway(invocation));
            && UnitSound(u, boot + 1) && RowSound(row, u)
            && Shows(u, NotFound(false)) && StoppedProof(row, NotFound(false), boot + 1, !u.populated) && !Dead(u)
  {
  }

  lemma RowMoves(row: Row, a: Unit, b: Unit)
    requires RowSound(row, a) && Moves(a, b)
    ensures RowSound(row, b)
  {
  }

  function Ids(rows: seq<Row>): seq<Id> {
    seq(|rows|, k requires 0 <= k < |rows| => rows[k].id)
  }

  // ---------------------------------------------------------------- the commands

  datatype Marker = Initializing | Ready

  datatype Prelude = Prelude(operation: Id, ids: seq<Id>, stopped: bool)

  /** The row of the name, under this request and of this boot, is not retired. */
  predicate Awaits(rows: seq<Row>, id: Id, request: Id, boot: nat) {
    exists k :: 0 <= k < |rows| && rows[k].id == id && rows[k].request == request && rows[k].boot == boot &&
                !rows[k].phase.Retired?
  }

  class Services {
    var marker: Option<Marker>
    var registry: Option<seq<Row>>
    var prelude: Option<Prelude>
    var boot: nat
    var units: map<Id, Unit>

    /** Whether `rows` may be written as the registry. */
    ghost predicate RowsOk(rows: seq<Row>)
      reads this
    {
      RowsSound(rows, units) && (prelude.Some? && prelude.value.stopped ==> AllRetired(rows))
    }

    ghost predicate Valid()
      reads this
    {
      && (forall id :: id in units ==> UnitSound(units[id], boot))
      && (registry.Some? ==> marker.Some? && RowsOk(registry.value))
      && (registry.None? ==> forall id :: id in units ==> units[id].launched.None?)
      && (marker != Some(Ready) ==> forall id :: id in units ==> units[id].launched.None?)
      && (marker == Some(Ready) ==> registry.Some?)
      && (prelude.Some? ==> marker == Some(Ready))
    }

    constructor ()
      ensures Valid() && marker.None? && registry.None? && prelude.None? && units == map[]
    {
      marker, registry, prelude, boot, units := None, None, None, 0, map[];
    }

    /**
     The manager goes on, or the machine reboots. No unit is launched, and what is dead stays dead. A `calm` step is not
     disturbed.
     */
    method Drift(calm: bool, ghost rows: seq<Row>)
      requires Valid() && RowsOk(rows)
      modifies this`units, this`boot
      ensures Valid() && RowsOk(rows)
      ensures units.Keys == old(units).Keys
      ensures forall id :: id in units ==> units[id].launched == old(units)[id].launched
      ensures forall id :: id in units && Dead(old(units)[id]) ==> Dead(units[id])
      ensures calm ==> units == old(units) && boot == old(boot)
    {
      if calm {
        return;
      }
      var reboots: bool := *;
      var next: map<Id, Unit> := *;
      if reboots {
        var after := map id | id in units :: Rebooted(units[id]);
        boot, units := boot + 1, after;
      } else if next.Keys == units.Keys && forall id :: id in units ==> Moves(units[id], next[id]) {
        forall k | 0 <= k < |rows| ensures RowSound(rows[k], UnitOf(next, rows[k].id)) {
          if rows[k].id in units {
            RowMoves(rows[k], units[rows[k].id], next[rows[k].id]);
          }
        }
        units := next;
      }
    }

    method WriteMarker(calm: bool, m: Marker) returns (ok: bool)
      requires Valid() && (m.Ready? ==> registry.Some?) && (m.Initializing? ==> marker != Some(Ready))
      modifies this`marker
      ensures Valid() && (ok ==> marker == Some(m)) && (marker == old(marker) || marker == Some(m))
      ensures calm ==> ok
    {
      var written: bool := *;
      ok := *;
      ok := ok || calm;
      if written || ok {
        marker := Some(m);
      }
    }

    /** Replace the registry file; a crash leaves the old or the new one. */
    method WriteRegistry(calm: bool, rows: seq<Row>) returns (ok: bool)
      requires Valid() && marker.Some? && RowsOk(rows)
      modifies this`registry
      ensures Valid() && (ok ==> registry == Some(rows)) && (registry == old(registry) || registry == Some(rows))
      ensures calm ==> ok
    {
      var written: bool := *;
      ok := *;
      ok := ok || calm;
      if written || ok {
        registry := Some(rows);
      }
    }

    /** systemd-run. It is called at most once for a name, after the row and the ready marker are on disk. */
    method Launch(calm: bool, id: Id) returns (ok: bool)
      requires Valid() && marker == Some(Ready) && registry.Some? && Registered(registry.value, id)
      requires UnitOf(units, id).launched.None?
      requires forall k :: 0 <= k < |registry.value| && registry.value[k].id == id ==>
        !registry.value[k].phase.Retired? && registry.value[k].invocation.None?
      modifies this`units, this`boot
      ensures Valid() && units.Keys == old(units).Keys + {id}
      ensures units[id].launches == UnitOf(old(units), id).launches + 1
      ensures forall other :: other in units && other != id ==> units[other].launched == old(units)[other].launched
      ensures calm ==> ok && units[id].loaded && boot == old(boot)
    {
      Drift(calm, registry.value);
      var reached: bool := *;
      var starts: bool := *;
      var invocation: nat := *;
      ok := *;
      ok := ok || calm;
      var reach := if ok || starts then Loaded(invocation) else if reached then Underway(invocation) else Lost;
      var u := Called(UnitOf(units, id), boot, reach);
      ghost var before := units;
      units := units[id := u];
      forall k | 0 <= k < |registry.value| ensures RowSound(registry.value[k], UnitOf(units, registry.value[k].id)) {
        assert RowSound(registry.value[k], UnitOf(before, registry.value[k].id));
      }
    }

    /** Observe one unit, or fail; an observation of a loaded unit of another boot or invocation is refused. */
    method Snapshot(calm: bool, row: Row, ghost rows: seq<Row>) returns (ok: bool, view: View, empty: bool)
      requires Valid() && RowsOk(rows)
      modifies this`units, this`boot
      ensures Valid() && RowsOk(rows) && Shows(UnitOf(units, row.id), view) && empty == !UnitOf(units, row.id).populated
      ensures ok && view.Found? ==>
        row.boot == boot && (row.invocation.Some? ==> row.invocation.value == view.invocation)
      ensures units.Keys == old(units).Keys
      ensures forall id :: id in units ==> units[id].launched == old(units)[id].launched
      ensures calm && row.boot == boot && row.invocation.None? ==> ok
      ensures calm ==> units == old(units) && boot == old(boot)
    {
      Drift(calm, rows);
      var u := UnitOf(units, row.id);
      var terminal: bool := *;
      ok := *;
      ok := ok || calm;
      empty := !u.populated;
      view := if u.loaded then Found(terminal, u.job, u.invocation) else NotFound(u.job);
      if view.Found? && (row.boot != boot || (row.invocation.Some? && row.invocation.value != view.invocation)) {
        ok := false;
      }
    }
  
    /** Place of a row in the registry, or its length. */
    static method Find(rows: seq<Row>, id: Id) returns (k: nat)
      ensures k <= |rows| && (k < |rows| ==> rows[k].id == id) && (k == |rows| <==> !Registered(rows, id))
    {
      k := 0;
      while k < |rows| && rows[k].id != id
        invariant k <= |rows| && forall j :: 0 <= j < k ==> rows[j].id != id
      {
        k := k + 1;
      }
    }

    /** A new row for an identity that was never registered. */
    lemma Registers(rows: seq<Row>, row: Row)
      requires Valid() && RowsOk(rows) && !Registered(rows, row.id) && !row.phase.Retired? && row.invocation.None?
      requires prelude.None?
      ensures RowsOk(rows + [row])
    {
      forall id | id in units && units[id].launched.Some? ensures Registered(rows + [row], id) {
        var k :| 0 <= k < |rows| && rows[k].id == id;
        assert (rows + [row])[k].id == id;
      }
    }

    /** One row changed; its identity stays. */
    lemma ChangedRow(rows: seq<Row>, k: nat, row: Row)
      requires Valid() && RowsOk(rows) && k < |rows| && row.id == rows[k].id && RowSound(row, UnitOf(units, row.id))
      requires row.phase.Retired? || (prelude.Some? ==> !prelude.value.stopped)
      ensures RowsOk(rows[k := row])
    {
      forall id | id in units && units[id].launched.Some? ensures Registered(rows[k := row], id) {
        var j :| 0 <= j < |rows| && rows[j].id == id;
        assert rows[k := row][j].id == id;
      }
    }

    lemma Stoppable(rows: seq<Row>, k: nat)
      requires Valid() && RowsOk(rows) && k < |rows| && !rows[k].phase.Retired?
      ensures prelude.Some? ==> !prelude.value.stopped
    {
    }

    /** observe!: remember the invocation of a loaded unit. */
    method Observe(calm: bool, rows: seq<Row>, k: nat, phase: Phase) returns (ok: bool, next: seq<Row>)
      requires Valid() && registry == Some(rows) && RowsOk(rows) && k < |rows| && !rows[k].phase.Retired?
      requires !phase.Retired?
      modifies this`units, this`boot, this`registry
      ensures Valid() && RowsOk(next) && registry.Some? && |next| == |rows| && !next[k].phase.Retired?
      ensures next[k].id == rows[k].id
      ensures next == rows[k := next[k]] && (registry == Some(rows) || registry == Some(next))
      ensures ok ==>
        && registry == Some(next) && UnitOf(units, rows[k].id).loaded
        && next[k] == rows[k].(phase := phase, invocation := Some(UnitOf(units, rows[k].id).invocation))
      ensures units.Keys == old(units).Keys
      ensures forall id :: id in units ==> units[id].launched == old(units)[id].launched
      ensures calm ==> boot == old(boot)
      ensures calm && rows[k].boot == boot && rows[k].invocation.None? && UnitOf(old(units), rows[k].id).loaded ==> ok
    {
      next := rows;
      var view, empty;
      ok, view, empty := Snapshot(calm, rows[k], rows);
      if !ok || view.NotFound? {
        ok := false;
        return;
      }
      Stoppable(rows, k);
      var row := rows[k].(phase := phase, invocation := if rows[k].invocation.Some? then rows[k].invocation
        else Some(view.invocation));
      ChangedRow(rows, k, row);
      next := rows[k := row];
      ok := WriteRegistry(calm, next);
    }

    /** The unit runs under this request: its row says so, and it was launched once. */
    ghost predicate Serves(id: Id, request: Id)
      reads this
    {
      && marker == Some(Ready) && registry.Some? && UnitOf(units, id).launches == 1 && UnitOf(units, id).loaded
      && exists k :: 0 <= k < |registry.value| && registry.value[k].id == id && registry.value[k].request == request &&
                     registry.value[k].phase == Running &&
                     registry.value[k].invocation == Some(UnitOf(units, id).invocation)
    }

    /** A first run of the name, or the retry of one that may not have launched yet. */
    ghost predicate MayStart(id: Id, request: Id)
      reads this
    {
      && prelude.None?
      && (registry.Some? && registry.value != [] ==>
            || (marker == Some(Ready) && !Registered(registry.value, id))
            || (marker == Some(Initializing) && Awaits(registry.value, id, request, boot)))
    }

    /** The first half of Store#run!: the row and the ready marker are on disk before a unit can be launched. */
    method Register(calm: bool, id: Id, request: Id) returns (ok: bool, rows: seq<Row>, k: nat, launches: bool)
      requires Valid()
      modifies this`marker, this`registry
      ensures Valid()
      ensures ok ==>
        && prelude.None? && marker == Some(Ready) && registry == Some(rows) && k < |rows| && rows[k].id == id
        && rows[k].request == request && !rows[k].phase.Retired?
      ensures ok && launches ==> UnitOf(units, id).launched.None?
      ensures calm && old(MayStart(id, request)) ==> ok && launches && rows[k].boot == boot
    {
      ok, rows, k, launches := false, [], 0, false;
      if prelude.Some? {
        return;
      }
      var initializing := marker == Some(Initializing);
      if marker.None? {
        ok := WriteMarker(calm, Initializing);
        if !ok {
          return;
        }
      }
      if registry.None? {
        ok := WriteRegistry(calm, []);
        if !ok {
          return;
        }
      }
      rows := registry.value;
      k := Find(rows, id);
      var isNew := k == |rows|;
      ok := false;
      if initializing && isNew && rows != [] {
        return;
      }
      if isNew {
        Registers(rows, NewRow(id, request, boot));
        rows := rows + [NewRow(id, request, boot)];
        ok := WriteRegistry(calm, rows);
        if !ok {
          return;
        }
      } else if rows[k].request != request || rows[k].phase.Retired? {
        return;
      }
      ok := true;
      if marker == Some(Initializing) {
        ok := WriteMarker(calm, Ready);
      }
      assert marker.value.Initializing? || marker.value.Ready?;
      launches := isNew || initializing;
    }

    /** A name is launched only while no row of it is retired or observed. */
    lemma Unobserved(rows: seq<Row>, k: nat)
      requires Valid() && registry == Some(rows) && k < |rows| && !rows[k].phase.Retired?
      requires UnitOf(units, rows[k].id).launched.None?
      ensures forall j :: 0 <= j < |rows| && rows[j].id == rows[k].id ==>
        j == k && !rows[j].phase.Retired? && rows[j].invocation.None?
    {
      assert RowSound(rows[k], UnitOf(units, rows[k].id));
    }

    /**
     Store#run!: register, mark ready, and only then launch; a retry launches only if the marker was still initializing.
     */
    method Run(calm: bool, id: Id, request: Id) returns (ok: bool)
      requires Valid()
      modifies this
      ensures Valid() && (ok ==> Serves(id, request))
      ensures calm && old(MayStart(id, request)) ==> ok
      ensures forall other :: other != id ==> UnitOf(units, other).launched == UnitOf(old(units), other).launched
      ensures old(prelude).Some? ==> units == old(units)
    {
      var rows, k, launches;
      ok, rows, k, launches := Register(calm, id, request);
      if !ok {
        return;
      }
      if launches {
        Unobserved(rows, k);
        ok := Launch(calm, id);
        if !ok {
          return;
        }
      }
      ok, rows := Observe(calm, rows, k, Running);
      if ok {
        LoadedOnce(id);
        assert registry.value[k].id == id && registry.value[k].request == request;
        assert registry.value[k].phase == Running;
      }
    }

    lemma LoadedOnce(id: Id)
      requires Valid() && UnitOf(units, id).loaded
      ensures UnitOf(units, id).launches == 1
    {
    }

    /** Wait for a proof that the unit stopped; `unloaded` also waits until the manager forgot it. */
    method AwaitStop(rows: seq<Row>, k: nat, unloaded: bool) returns (ok: bool)
      requires Valid() && RowsOk(rows) && k < |rows|
      modifies this`units, this`boot
      ensures Valid() && RowsOk(rows)
      ensures ok ==> Dead(UnitOf(units, rows[k].id)) || LaunchedLater(rows[k], UnitOf(units, rows[k].id))
    {
      ok := false;
      var tries: nat := *;
      while tries > 0
        invariant Valid() && RowsOk(rows)
      {
        var answered, view, empty := Snapshot(false, rows[k], rows);
        if !answered {
          return;
        }
        if StoppedProof(rows[k], view, boot, empty) && (view.NotFound? || !unloaded) {
          if rows[k].id in units {
            ProofIsRight(rows[k], units[rows[k].id], view, boot);
          }
          ok := true;
          return;
        }
        tries := tries - 1;
      }
    }

    /** stop_row!: a row is retired only after a proof that its unit stopped. */
    method StopRow(k: nat) returns (ok: bool)
      requires Valid() && registry.Some? && k < |registry.value|
      modifies this`units, this`boot, this`registry
      ensures Valid() && registry.Some? && |registry.value| == |old(registry).value|
      ensures forall j :: 0 <= j < |registry.value| ==> registry.value[j].id == old(registry).value[j].id
      ensures forall j :: 0 <= j < |registry.value| && old(registry).value[j].phase.Retired? ==>
        registry.value[j].phase.Retired?
      ensures ok ==> registry.value[k].phase.Retired?
    {
      var rows := registry.value;
      ok := true;
      if rows[k].phase.Retired? {
        return;
      }
      var view, empty;
      ok, view, empty := Snapshot(false, rows[k], rows);
      if !ok {
        return;
      }
      if view.Found? {
        ok, rows := Observe(false, rows, k, Stopping);
        if !ok {
          return;
        }
      }
      ok := RetireStopped(rows, k);
    }

    /** The end of stop_row!: prove the stop, save it, wait until the unit is unloaded, and retire the row. */
    method RetireStopped(rows: seq<Row>, k: nat) returns (ok: bool)
      requires Valid() && marker.Some? && registry.Some? && |registry.value| == |rows| && RowsOk(rows) && k < |rows|
      requires !rows[k].phase.Retired?
      modifies this`units, this`boot, this`registry
      ensures Valid()
      ensures (registry == old(registry) || registry == Some(rows)
        || registry == Some(rows[k := rows[k].(phase := Retired)]))
      ensures ok ==> registry == Some(rows[k := rows[k].(phase := Retired)])
    {
      ok := AwaitStop(rows, k, false);
      if !ok {
        return;
      }
      ok := WriteRegistry(false, rows);
      if !ok {
        return;
      }
      ok := AwaitStop(rows, k, true);
      if !ok {
        return;
      }
      ChangedRow(rows, k, rows[k].(phase := Retired));
      ok := WriteRegistry(false, rows[k := rows[k].(phase := Retired)]);
    }

    /**
     finish_initialization_without_launch!: while the marker is initializing no unit was launched, so every row retires.
     */
    method FinishWithoutLaunch() returns (ok: bool)
      requires Valid() && marker == Some(Initializing)
      modifies this`marker, this`registry
      ensures Valid() && marker.Some? && (ok ==> marker == Some(Ready))
      ensures ok ==>
        && registry.Some? && AllRetired(registry.value)
        && Ids(registry.value) == if old(registry).Some? then Ids(old(registry).value) else []
      ensures forall id :: id in units ==> units[id].launched.None?
    {
      if registry.None? {
        ok := WriteRegistry(false, []);
        if !ok {
          return;
        }
      }
      var rows, n := registry.value, |registry.value|;
      for k := 0 to n
        invariant Valid() && RowsOk(rows) && marker == Some(Initializing) && registry.Some? && |rows| == n
        invariant Ids(rows) == Ids(registry.value) && (forall j :: 0 <= j < k ==> rows[j].phase.Retired?)
        invariant Ids(registry.value) == if old(registry).Some? then Ids(old(registry).value) else []
      {
        ChangedRow(rows, k, rows[k].(phase := Retired));
        rows := rows[k := rows[k].(phase := Retired)];
      }
      ok := WriteRegistry(false, rows);
      if !ok {
        return;
      }
      ok := WriteMarker(false, Ready);
    }

    method WritePrelude(p: Option<Prelude>) returns (ok: bool)
      requires Valid() && marker == Some(Ready)
      requires (p.Some? && p.value.stopped ==> registry.Some? && AllRetired(registry.value))
      modifies this`prelude
      ensures Valid() && (ok ==> prelude == p) && (prelude == old(prelude) || prelude == p)
    {
      var written: bool := *;
      ok := *;
      if written || ok {
        prelude := p;
      }
    }

    /** prepare_cleanup!: one lifecycle operation owns the cleanup. */
    method PrepareCleanup(operation: Id) returns (ok: bool)
      requires Valid()
      modifies this
      ensures Valid() && (ok && marker.Some? ==> prelude.Some? && prelude.value.operation == operation)
      ensures ok && marker.Some? && old(prelude).None? ==>
        registry.Some? && prelude.value.ids == Ids(registry.value) && !prelude.value.stopped
    {
      ok := true;
      if marker.None? {
        return;
      }
      if marker == Some(Initializing) {
        ok := FinishWithoutLaunch();
        if !ok {
          return;
        }
      }
      assert marker.value.Initializing? || marker.value.Ready?;
      if prelude.Some? {
        ok := prelude.value.operation == operation;
        return;
      }
      ok := WritePrelude(Some(Prelude(operation, Ids(registry.value), false)));
    }

    /** cleanup!: stop every row; the cleanup counts as done only when all are retired. */
    method Cleanup() returns (ok: bool)
      requires Valid()
      modifies this
      ensures Valid()
      ensures ok && marker.Some? ==>
        prelude.Some? && prelude.value.stopped && registry.Some? && AllRetired(registry.value)
    {
      ok := true;
      if marker.None? {
        return;
      }
      if prelude.None? {
        ok := false;
        return;
      }
      var ids := prelude.value.ids;
      for n := 0 to |ids|
        invariant Valid() && registry.Some? && marker == Some(Ready) && prelude.Some?
      {
        var k := Find(registry.value, ids[n]);
        if k == |registry.value| {
          ok := false;
          return;
        }
        ok := StopRow(k);
        if !ok {
          return;
        }
      }
      if exists k :: 0 <= k < |registry.value| && !registry.value[k].phase.Retired? {
        ok := false;
        return;
      }
      ok := WritePrelude(Some(prelude.value.(stopped := true)));
    }

    /** handoff_cleanup!: the lifecycle journal takes over after everything retired. */
    method Handoff(operation: Id) returns (ok: bool)
      requires Valid()
      modifies this`prelude
      ensures Valid()
      ensures (prelude != old(prelude) ==> old(prelude).Some? && registry.Some? && AllRetired(registry.value))
    {
      ok := true;
      if prelude.None? {
        return;
      }
      if prelude.value.operation != operation || !prelude.value.stopped
         || exists k :: 0 <= k < |registry.value| && !registry.value[k].phase.Retired? {
        ok := false;
        return;
      }
      ok := WritePrelude(None);
    }

    /**
     Any sequence of commands, each dying anywhere: a name is launched at most once, never under an initializing marker,
     and what is retired is dead.
     */
    method Drive(commands: seq<(nat, Id, Id)>)
      requires Valid()
      modifies this
      ensures Valid()
      ensures forall id :: id in units ==>
        units[id].launches <= 1 && (marker != Some(Ready) ==> units[id].launches == 0)
      ensures registry.Some? ==> forall k :: 0 <= k < |registry.value| && registry.value[k].phase.Retired? ==>
                var u := UnitOf(units, registry.value[k].id); Dead(u) || LaunchedLater(registry.value[k], u)
    {
      for n := 0 to |commands|
        invariant Valid()
      {
        var ok;
        var (command, id, other) := commands[n];
        if command == 0 {
          ok := Run(false, id, other);
        } else if command == 1 && registry.Some? && prelude.None? {
          var k := Find(registry.value, id);
          if k < |registry.value| {
            ok := StopRow(k);
          }
        } else if command == 2 {
          ok := PrepareCleanup(id);
        } else if command == 3 {
          ok := Cleanup();
        } else if command == 4 {
          ok := Handoff(id);
        }
      }
    }
  }
}
