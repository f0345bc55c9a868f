/**
 Archive cleanup (libexec/workspace-archive-cleanup.rb): a sealed inventory of the
 checkouts and container directories below a session's worktree group is removed
 from disk, with the progress kept in a sidecar file. A run may die between any two
 effects; the next one starts from the sidecar. Paths are sequences of names below
 the group, whose own path is empty.
 */
module ArchiveCleanup {
  import opened Wrappers

  type Path = seq<string>
  type Id = nat

  datatype Kind = Checkout | Container | Unmanaged

  /** Something on disk; `seal` stands for its identity, head, branch and Git administration. */
  datatype Node = Node(kind: Kind, seal: Id)

  type Disk = map<Path, Node>

  datatype Entry = Entry(path: Path, seal: Id, removed: bool)

  datatype Sidecar = Sidecar(checkouts: seq<Entry>, containers: seq<Entry>, completed: bool)

  // ---------------------------------------------------------------- what is sealed, and what may change

  /** The digest covers everything of the inventory but the progress flags. */
  function Sealed(entries: seq<Entry>): seq<(Path, Id)> {
    seq(|entries|, k requires 0 <= k < |entries| => (entries[k].path, entries[k].seal))
  }

  predicate SameSeal(a: Sidecar, b: Sidecar) {
    Sealed(a.checkouts) == Sealed(b.checkouts) && Sealed(a.containers) == Sealed(b.containers)
  }

  /** Flags only go from false to true. */
  predicate Forward(a: seq<Entry>, b: seq<Entry>) {
    |a| == |b| && forall k :: 0 <= k < |a| ==> (a[k].removed ==> b[k].removed)
  }

  predicate Progress(a: Sidecar, b: Sidecar) {
    SameSeal(a, b) && Forward(a.checkouts, b.checkouts) && Forward(a.containers, b.containers)
      && (a.completed ==> b.completed)
  }

  predicate Distinct(entries: seq<Entry>) {
    forall i, k :: 0 <= i < k < |entries| ==> entries[i].path != entries[k].path
  }

  predicate AllRemoved(entries: seq<Entry>) {
    forall k :: 0 <= k < |entries| ==> entries[k].removed
  }

  /** The cross-record checks of the validator. */
  predicate Wellformed(s: Sidecar) {
    Distinct(s.checkouts) && Distinct(s.containers)
      && (s.completed ==> AllRemoved(s.checkouts) && AllRemoved(s.containers))
  }

  /** Each flag of a kind says whether its entry is gone; an entry that is there is the sealed one. */
  predicate Exact(entries: seq<Entry>, kind: Kind, disk: Disk) {
    forall k :: 0 <= k < |entries| ==>
      if entries[k].removed then entries[k].path !in disk
      else entries[k].path in disk && disk[entries[k].path] == Node(kind, entries[k].seal)
  }

  predicate Listed(entries: seq<Entry>, path: Path) {
    exists k :: 0 <= k < |entries| && entries[k].path == path
  }

  /** Nothing is below the group but what the inventory names. */
  predicate NothingElse(s: Sidecar, disk: Disk) {
    forall p :: p in disk ==>
      match disk[p].kind
      case Checkout => Listed(s.checkouts, p)
      case Container => Listed(s.containers, p)
      case Unmanaged => false
  }

  predicate Agrees(s: Sidecar, disk: Disk) {
    Exact(s.checkouts, Checkout, disk) && Exact(s.containers, Container, disk) && NothingElse(s, disk)
  }

  /** What holds between runs when nobody else touches the group: flags may lag behind the disk. */
  predicate Lags(entries: seq<Entry>, kind: Kind, disk: Disk) {
    forall k :: 0 <= k < |entries| ==>
      && (entries[k].removed ==> entries[k].path !in disk)
      && (entries[k].path in disk ==> disk[entries[k].path] == Node(kind, entries[k].seal))
  }

  predicate Behind(s: Sidecar, disk: Disk) {
    Lags(s.checkouts, Checkout, disk) && Lags(s.containers, Container, disk) && NothingElse(s, disk)
  }

  lemma SealKeeps(a: Sidecar, b: Sidecar, disk: Disk)
    requires Progress(a, b)
    ensures Distinct(a.checkouts) && Distinct(a.containers) ==> Distinct(b.checkouts) && Distinct(b.containers)
    ensures NothingElse(a, disk) <==> NothingElse(b, disk)
  {
    PathsSame(a.checkouts, b.checkouts);
    PathsSame(a.containers, b.containers);
  }

  lemma PathsSame(a: seq<Entry>, b: seq<Entry>)
    requires Sealed(a) == Sealed(b)
    ensures |a| == |b| && forall k :: 0 <= k < |a| ==> a[k].path == b[k].path && a[k].seal == b[k].seal
    ensures forall p :: Listed(a, p) <==> Listed(b, p)
  {
    assert |Sealed(a)| == |Sealed(b)|;
    forall k | 0 <= k < |a| ensures a[k].path == b[k].path && a[k].seal == b[k].seal {
      assert Sealed(a)[k] == Sealed(b)[k];
    }
    forall p ensures Listed(a, p) <==> Listed(b, p) {
      if Listed(a, p) {
        var k :| 0 <= k < |a| && a[k].path == p;
        assert b[k].path == p;
      }
      if Listed(b, p) {
        var k :| 0 <= k < |b| && b[k].path == p;
        assert a[k].path == p;
      }
    }
  }

  lemma ProgressTrans(a: Sidecar, b: Sidecar, c: Sidecar)
    requires Progress(a, b) && Progress(b, c)
    ensures Progress(a, c)
  {
  }

  // ---------------------------------------------------------------- order of removal

  /** The first `n` entries, each once. */
  predicate EachOnce(order: seq<nat>, n: nat) {
    && (forall i :: 0 <= i < |order| ==> order[i] < n)
    && (forall k :: 0 <= k < n ==> k in order)
    && forall i, j :: 0 <= i < j < |order| ==> order[i] != order[j]
  }

  predicate Descends(entries: seq<Entry>, order: seq<nat>)
    requires forall i :: 0 <= i < |order| ==> order[i] < |entries|
  {
    forall i, j :: 0 <= i < j < |order| ==> |entries[order[i]].path| >= |entries[order[j]].path|
  }

  /** The first `n` entries, deepest first. */
  predicate Sorted(entries: seq<Entry>, order: seq<nat>, n: nat)
    requires n <= |entries|
  {
    EachOnce(order, n) && Descends(entries, order)
  }

  /** Deeper containers first, the group itself last, each container once. */
  predicate DeepestFirst(entries: seq<Entry>, order: seq<nat>) {
    Sorted(entries, order, |entries|)
  }

  function Insert(order: seq<nat>, n: nat, at: nat): (r: seq<nat>)
    requires at <= |order|
    ensures |r| == |order| + 1
    ensures forall i :: 0 <= i < |r| ==> r[i] == if i < at then order[i] else if i == at then n else order[i - 1]
  {
    order[..at] + [n] + order[at..]
  }

  lemma InsertedOnce(order: seq<nat>, n: nat, at: nat)
    requires EachOnce(order, n) && at <= |order|
    ensures EachOnce(Insert(order, n, at), n + 1)
  {
    var after := Insert(order, n, at);
    assert after == order[..at] + [n] + order[at..];
    forall k | 0 <= k < n + 1 ensures k in after {
      if k == n {
        assert after[at] == n;
      } else {
        assert k in order && order == order[..at] + order[at..];
      }
    }
  }

  lemma Inserted(entries: seq<Entry>, order: seq<nat>, n: nat, at: nat)
    requires n < |entries| && Sorted(entries, order, n) && at <= |order|
    requires forall i :: 0 <= i < at ==> |entries[order[i]].path| >= |entries[n].path|
    requires at < |order| ==> |entries[order[at]].path| < |entries[n].path|
    ensures Sorted(entries, Insert(order, n, at), n + 1)
  {
    InsertedOnce(order, n, at);
    var after := Insert(order, n, at);
    forall i, j | 0 <= i < j < |after| ensures |entries[after[i]].path| >= |entries[after[j]].path| {
      if i == at && at < |order| {
        assert |entries[order[at]].path| >= |entries[order[j - 1]].path|;
      }
    }
  }

  method SortByDepth(entries: seq<Entry>) returns (order: seq<nat>)
    ensures DeepestFirst(entries, order)
  {
    order := [];
    for n := 0 to |entries|
      invariant Sorted(entries, order, n)
    {
      var at := 0;
      while at < |order| && |entries[order[at]].path| >= |entries[n].path|
        invariant 0 <= at <= |order| && forall i :: 0 <= i < at ==> |entries[order[i]].path| >= |entries[n].path|
      {
        at := at + 1;
      }
      Inserted(entries, order, n, at);
      order := Insert(order, n, at);
    }
  }

  /** What stands below a container at place `i` of the order comes before it. */
  lemma BelowComesFirst(entries: seq<Entry>, order: seq<nat>, i: nat, k: nat)
    requires DeepestFirst(entries, order) && i < |order| && k < |entries| && entries[order[i]].path < entries[k].path
    ensures k in order[..i]
  {
    assert k in order;
    var j :| 0 <= j < |order| && order[j] == k;
    assert j < i;
  }

  // ---------------------------------------------------------------- facts about one removal

  function Marked(entries: seq<Entry>, k: nat): seq<Entry>
    requires k < |entries|
  {
    entries[k := entries[k].(removed := true)]
  }

  lemma MarkedForward(entries: seq<Entry>, k: nat)
    requires k < |entries|
    ensures Sealed(Marked(entries, k)) == Sealed(entries) && Forward(entries, Marked(entries, k))
    ensures Distinct(entries) ==> Distinct(Marked(entries, k))
  {
  }

  /** An entry whose path is gone may be marked. */
  lemma MarkedLags(entries: seq<Entry>, kind: Kind, disk: Disk, k: nat)
    requires k < |entries| && Lags(entries, kind, disk) && entries[k].path !in disk
    ensures Lags(Marked(entries, k), kind, disk)
  {
  }

  lemma GoneLags(s: Sidecar, disk: Disk, path: Path)
    requires Behind(s, disk)
    ensures Behind(s, disk - {path})
  {
  }

  lemma AgreesBehind(s: Sidecar, disk: Disk)
    requires Agrees(s, disk)
    ensures Behind(s, disk)
  {
  }

  /** When everything inventoried below a container is gone and nothing else is there, it is empty. */
  lemma EmptyContainer(s: Sidecar, disk: Disk, path: Path)
    requires Agrees(s, disk) && AllRemoved(s.checkouts)
    requires forall k :: 0 <= k < |s.containers| && path < s.containers[k].path ==> s.containers[k].removed
    ensures forall p :: p in disk ==> !(path < p)
  {
    forall p | p in disk ensures !(path < p) {
      assert disk[p].kind.Checkout? ==> Listed(s.checkouts, p);
      assert disk[p].kind.Container? ==> Listed(s.containers, p);
    }
  }

  class Cleanup {
    const alone: bool         // nobody else touches the group between two effects
    var saved: Sidecar
    var disk: Disk
    ghost var sealed: Sidecar // the inventory as it was created

    ghost predicate Valid()
      reads this
    {
      Wellformed(saved) && Progress(sealed, saved) && (alone ==> Behind(saved, disk))
    }

    /** What a run may hold in memory: the saved sidecar with some more progress. */
    ghost predicate Held(value: Sidecar)
      reads this
    {
      Wellformed(value) && Progress(saved, value) && (alone ==> Behind(value, disk))
    }

    constructor (alone: bool, checkouts: seq<Entry>, containers: seq<Entry>, disk: Disk)
      requires Distinct(checkouts) && Distinct(containers)
      requires Agrees(Sidecar(checkouts, containers, false), disk)
      ensures Valid() && this.alone == alone && this.disk == disk
      ensures saved == Sidecar(checkouts, containers, false) == sealed
    {
      this.alone, this.disk := alone, disk;
      saved, sealed := Sidecar(checkouts, containers, false), Sidecar(checkouts, containers, false);
      AgreesBehind(Sidecar(checkouts, containers, false), disk);
    }

    /** Whatever others do to the group. */
    method Drift(ghost value: Sidecar)
      requires Valid() && Held(value)
      modifies this`disk
      ensures Valid() && Held(value) && (alone ==> disk == old(disk))
    {
      var next: Disk := *;
      if !alone {
        disk := next;
      }
    }

    /** Replace the sidecar file; a crash leaves the old or the new one. */
    method Write(value: Sidecar, calm: bool) returns (ok: bool)
      requires Valid() && Held(value)
      modifies this`saved
      ensures Valid() && Held(value) && Progress(old(saved), saved) && (ok ==> saved == value) && (calm ==> ok)
    {
      var written: bool := *;
      var answered: bool := *;
      ok := calm || answered;
      if written || ok {
        ProgressTrans(sealed, saved, value);
        saved := value;
      }
    }

    /** The loop of #revalidate! over one kind: what is gone is marked, what is there must be the sealed entry. */
    method MarkAbsent(entries: seq<Entry>, kind: Kind) returns (ok: bool, next: seq<Entry>)
      ensures Sealed(next) == Sealed(entries) && Forward(entries, next) && (Distinct(entries) ==> Distinct(next))
      ensures ok ==> Exact(next, kind, disk)
      ensures Lags(entries, kind, disk) ==> ok && Lags(next, kind, disk)
    {
      next := entries;
      for k := 0 to |entries|
        invariant Sealed(next) == Sealed(entries) && Forward(entries, next) && (Distinct(entries) ==> Distinct(next))
        invariant |next| == |entries|
        invariant forall j :: 0 <= j < k ==>
                    if next[j].removed then next[j].path !in disk
                    else next[j].path in disk && disk[next[j].path] == Node(kind, next[j].seal)
        invariant forall j :: k <= j < |entries| ==> next[j] == entries[j]
        invariant Lags(entries, kind, disk) ==> Lags(next, kind, disk)
      {
        var entry := entries[k];
        if entry.path in disk {
          if entry.removed || disk[entry.path] != Node(kind, entry.seal) {
            ok := false;
            return;
          }
        } else {
          MarkedForward(next, k);
          next := Marked(next, k);
        }
      }
      ok := true;
    }

    /** #revalidate!: compare the inventory with the disk, note what is gone, and save. */
    method Revalidate(value: Sidecar, calm: bool) returns (ok: bool, next: Sidecar)
      requires Valid() && Held(value)
      modifies this
      ensures Valid() && Held(next) && Progress(value, next) && sealed == old(sealed) && Progress(old(saved), saved)
      ensures ok ==> Agrees(next, disk) && saved == next
      ensures calm && alone ==> ok && disk == old(disk)
    {
      Drift(value);
      next := value;
      var proven: bool := *;
      if !(proven || calm) || !NothingElse(value, disk) {
        ok := false;
        return;
      }
      var checkouts, containers;
      ok, checkouts := MarkAbsent(value.checkouts, Checkout);
      if !ok {
        return;
      }
      ok, containers := MarkAbsent(value.containers, Container);
      if !ok {
        return;
      }
      next := value.(checkouts := checkouts, containers := containers);
      SealKeeps(value, next, disk);
      ProgressTrans(saved, value, next);
      AgreesBehind(next, disk);
      ok := Write(next, calm);
    }
  
    /** git worktree remove. */
    method RemoveCheckout(value: Sidecar, k: nat, calm: bool) returns (ok: bool)
      requires Valid() && Held(value) && k < |value.checkouts|
      modifies this`disk
      ensures Valid() && Held(value) && (ok ==> value.checkouts[k].path !in disk) && (calm && alone ==> ok)
    {
      Drift(value);
      var removes: bool := *;
      var answered: bool := *;
      ok := calm || answered;
      if removes || ok {
        GoneBoth(value, value.checkouts[k].path);
        disk := disk - {value.checkouts[k].path};
      }
    }

    lemma GoneBoth(value: Sidecar, path: Path)
      requires Valid() && Held(value)
      ensures alone ==> Behind(saved, disk - {path}) && Behind(value, disk - {path})
    {
      if alone {
        GoneLags(saved, disk, path);
        GoneLags(value, disk, path);
      }
    }

    /**
     rmdir. A container goes only after every checkout and after everything inventoried below it; it must be empty.
     */
    method RemoveContainer(value: Sidecar, k: nat, calm: bool) returns (ok: bool)
      requires Valid() && Held(value) && k < |value.containers| && AllRemoved(value.checkouts)
      requires forall j :: 0 <= j < |value.containers| && value.containers[k].path < value.containers[j].path ==>
        value.containers[j].removed
      requires Agrees(value, disk)
      modifies this`disk
      ensures Valid() && Held(value) && (ok ==> value.containers[k].path !in disk) && (calm && alone ==> ok)
    {
      EmptyContainer(value, disk, value.containers[k].path);
      Drift(value);
      var path := value.containers[k].path;
      if exists p :: p in disk && path < p {
        ok := false;
        return;
      }
      var removes: bool := *;
      var answered: bool := *;
      ok := calm || answered;
      if removes || ok {
        GoneBoth(value, path);
        disk := disk - {path};
      }
    }

    /** Mark one checkout and save. */
    method NoteCheckout(value: Sidecar, k: nat, calm: bool) returns (ok: bool, next: Sidecar)
      requires Valid() && Held(value) && k < |value.checkouts| && value.checkouts[k].path !in disk
      modifies this`saved
      ensures Valid() && Held(next) && Progress(old(saved), saved)
      ensures next == value.(checkouts := Marked(value.checkouts, k)) && (calm ==> ok)
    {
      next := value.(checkouts := Marked(value.checkouts, k));
      MarkedForward(value.checkouts, k);
      ProgressTrans(saved, value, next);
      SealKeeps(value, next, disk);
      if alone {
        MarkedLags(value.checkouts, Checkout, disk, k);
      }
      ok := Write(next, calm);
    }

    method NoteContainer(value: Sidecar, k: nat, calm: bool) returns (ok: bool, next: Sidecar)
      requires Valid() && Held(value) && k < |value.containers| && value.containers[k].path !in disk
      modifies this`saved
      ensures Valid() && Held(next) && Progress(old(saved), saved)
      ensures next == value.(containers := Marked(value.containers, k)) && (calm ==> ok)
    {
      next := value.(containers := Marked(value.containers, k));
      MarkedForward(value.containers, k);
      ProgressTrans(saved, value, next);
      SealKeeps(value, next, disk);
      if alone {
        MarkedLags(value.containers, Container, disk, k);
      }
      ok := Write(next, calm);
    }

    /** The first loop of #remove_entries!. */
    method RemoveCheckouts(value: Sidecar, calm: bool) returns (ok: bool, next: Sidecar)
      requires Valid() && Held(value)
      modifies this
      ensures Valid() && Held(next) && Progress(value, next) && sealed == old(sealed) && Progress(old(saved), saved)
      ensures (ok ==> AllRemoved(next.checkouts)) && (calm && alone ==> ok)
    {
      ok, next := true, value;
      for k := 0 to |value.checkouts|
        invariant Valid() && Held(next) && Progress(value, next) && sealed == old(sealed) && Progress(old(saved), saved)
        invariant |next.checkouts| == |value.checkouts|
        invariant forall j :: 0 <= j < k ==> next.checkouts[j].removed
      {
        if !next.checkouts[k].removed {
          ok, next := RemoveOneCheckout(next, k, calm);
          if !ok {
            return;
          }
        }
      }
    }

    method RemoveOneCheckout(value: Sidecar, k: nat, calm: bool) returns (ok: bool, next: Sidecar)
      requires Valid() && Held(value) && k < |value.checkouts|
      modifies this
      ensures Valid() && Held(next) && Progress(value, next) && sealed == old(sealed) && Progress(old(saved), saved)
      ensures |next.checkouts| == |value.checkouts|
      ensures (ok ==> next.checkouts[k].removed) && (calm && alone ==> ok)
    {
      ok, next := Revalidate(value, calm);
      if !ok || next.checkouts[k].removed {
        return;
      }
      ok := RemoveCheckout(next, k, calm);
      if !ok {
        return;
      }
      MarkedForward(next.checkouts, k);
      ok, next := NoteCheckout(next, k, calm);
    }

    /** The second loop of #remove_entries!, deepest containers first. */
    method RemoveContainers(value: Sidecar, calm: bool) returns (ok: bool, next: Sidecar)
      requires Valid() && Held(value) && AllRemoved(value.checkouts)
      modifies this
      ensures Valid() && Held(next) && Progress(value, next) && sealed == old(sealed) && Progress(old(saved), saved)
      ensures (ok ==> AllRemoved(next.checkouts) && AllRemoved(next.containers)) && (calm && alone ==> ok)
    {
      var order := SortByDepth(value.containers);
      ok, next := true, value;
      for i := 0 to |order|
        invariant Valid() && Held(next) && Progress(value, next) && sealed == old(sealed) && Progress(old(saved), saved)
        invariant |next.containers| == |value.containers|
        invariant forall j :: 0 <= j < i ==> next.containers[order[j]].removed
      {
        if !next.containers[order[i]].removed {
          PathsSame(value.containers, next.containers);
          forall k | 0 <= k < |next.containers| && next.containers[order[i]].path < next.containers[k].path
            ensures next.containers[k].removed
          {
            BelowComesFirst(value.containers, order, i, k);
            var j :| 0 <= j < i && order[j] == k;
          }
          ok, next := RemoveOneContainer(next, order[i], calm);
          if !ok {
            return;
          }
        }
      }
      forall k | 0 <= k < |next.containers| ensures next.containers[k].removed {
        assert k in order;
        var j :| 0 <= j < |order| && order[j] == k;
      }
    }

    method RemoveOneContainer(value: Sidecar, k: nat, calm: bool) returns (ok: bool, next: Sidecar)
      requires Valid() && Held(value) && k < |value.containers| && AllRemoved(value.checkouts)
      requires forall j :: 0 <= j < |value.containers| && value.containers[k].path < value.containers[j].path ==>
        value.containers[j].removed
      modifies this
      ensures Valid() && Held(next) && Progress(value, next) && sealed == old(sealed) && Progress(old(saved), saved)
      ensures |next.containers| == |value.containers|
      ensures (ok ==> next.containers[k].removed) && (calm && alone ==> ok)
    {
      ok, next := Revalidate(value, calm);
      if !ok || next.containers[k].removed {
        return;
      }
      PathsSame(value.containers, next.containers);
      ok := RemoveContainer(next, k, calm);
      if !ok {
        return;
      }
      MarkedForward(next.containers, k);
      ok, next := NoteContainer(next, k, calm);
    }

    /**
     #remove! and #complete!: load the sidecar, remove what is left of it, and complete it. Undisturbed, a run finishes.
     */
    method Finish(calm: bool) returns (ok: bool)
      requires Valid()
      modifies this
      ensures Valid() && Progress(old(saved), saved) && sealed == old(sealed)
      ensures ok ==> saved.completed && forall k :: 0 <= k < |saved.checkouts| ==> saved.checkouts[k].path !in disk
      ensures ok ==> forall k :: 0 <= k < |saved.containers| ==> saved.containers[k].path !in disk
      ensures calm && alone ==> ok
    {
      var value := saved;
      ok, value := Revalidate(value, calm);
      if !ok {
        return;
      }
      ok, value := RemoveCheckouts(value, calm);
      if !ok {
        return;
      }
      ok, value := RemoveContainers(value, calm);
      if !ok {
        return;
      }
      ok := Complete(value, calm);
    }

    /** #complete!, for a sidecar in which everything is marked. */
    method Complete(value: Sidecar, calm: bool) returns (ok: bool)
      requires Valid() && Held(value) && AllRemoved(value.checkouts) && AllRemoved(value.containers)
      modifies this
      ensures Valid() && Progress(old(saved), saved) && sealed == old(sealed)
      ensures ok ==> saved.completed && forall k :: 0 <= k < |saved.checkouts| ==> saved.checkouts[k].path !in disk
      ensures ok ==> forall k :: 0 <= k < |saved.containers| ==> saved.containers[k].path !in disk
      ensures calm && alone ==> ok
    {
      var next;
      ok, next := Revalidate(value, calm);
      if !ok {
        return;
      }
      var done := next.(completed := true);
      ok := Write(done, calm);
    }

    /** Any number of runs, each dying anywhere; a last undisturbed one finishes the same inventory. */
    method Drive(runs: nat) returns (done: bool)
      requires Valid()
      modifies this
      ensures Valid() && Progress(old(saved), saved) && sealed == old(sealed)
      ensures alone ==> done && saved.completed
    {
      for n := 0 to runs
        invariant Valid() && Progress(old(saved), saved) && sealed == old(sealed)
      {
        var ok := Finish(false);
      }
      done := Finish(true);
    }
  }
}
