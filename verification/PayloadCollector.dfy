/**
 The mark phase and the plan of the payload collector (libexec/workspace-coordination-gc.rb).
 A string of the metadata is known by the digests it names and the payload paths it
 contains; everything named by something live is live.
 */
module PayloadCollector {
  import opened Wrappers

  type Id = nat
  type Path = string

  datatype Value = Fields(values: seq<Value>) | Items(values: seq<Value>) | Text(ids: seq<Id>, payloads: set<Path>)

  type Metadata = map<Id, Value>

  // ---------------------------------------------------------------- references

  function IdsOf(value: Value): set<Id> {
    match value
    case Text(ids, _) => set id | id in ids
    case Fields(values) => set v, id | v in values && id in IdsOf(v) :: id
    case Items(values) => set v, id | v in values && id in IdsOf(v) :: id
  }

  function PayloadsOf(value: Value): set<Path> {
    match value
    case Text(_, payloads) => payloads
    case Fields(values) => set v, p | v in values && p in PayloadsOf(v) :: p
    case Items(values) => set v, p | v in values && p in PayloadsOf(v) :: p
  }

  /** Each digest of the path is named by the metadata of the one before it. */
  ghost predicate Chain(metadata: Metadata, path: seq<Id>) {
    && |path| > 0
    && forall k :: 0 <= k < |path| - 1 ==> path[k] in metadata && path[k + 1] in IdsOf(metadata[path[k]])
  }

  /** `id` is named by the value, directly or through the metadata of other digests. */
  ghost predicate Reaches(metadata: Metadata, value: Value, id: Id) {
    exists path :: Chain(metadata, path) && path[0] in IdsOf(value) && path[|path| - 1] == id
  }

  /** Whatever a live digest names is live. */
  ghost predicate Closed(metadata: Metadata, ids: set<Id>, payloads: set<Path>) {
    forall id :: id in ids && id in metadata ==> IdsOf(metadata[id]) <= ids && PayloadsOf(metadata[id]) <= payloads
  }

  lemma {:induction false} ClosedContains(metadata: Metadata, ids: set<Id>, payloads: set<Path>, path: seq<Id>)
    requires Closed(metadata, ids, payloads) && Chain(metadata, path) && path[0] in ids
    ensures path[|path| - 1] in ids
    decreases |path|
  {
    if |path| > 1 {
      ClosedContains(metadata, ids, payloads, path[..|path| - 1]);
      assert path[|path| - 2] in ids;
    }
  }

  lemma ReachesFirst(metadata: Metadata, value: Value, id: Id)
    requires id in IdsOf(value)
    ensures Reaches(metadata, value, id)
  {
    assert Chain(metadata, [id]) && [id][0] in IdsOf(value) && [id][|[id]| - 1] == id;
  }

  lemma ReachesThrough(metadata: Metadata, value: Value, id: Id, next: Id)
    requires id in IdsOf(value) && id in metadata && Reaches(metadata, metadata[id], next)
    ensures Reaches(metadata, value, next)
  {
    var path :| Chain(metadata, path) && path[0] in IdsOf(metadata[id]) && path[|path| - 1] == next;
    assert Chain(metadata, [id] + path);
  }

  lemma ReachesInside(metadata: Metadata, value: Value, k: nat, id: Id)
    requires !value.Text? && k < |value.values| && Reaches(metadata, value.values[k], id)
    ensures Reaches(metadata, value, id)
  {
    var path :| Chain(metadata, path) && path[0] in IdsOf(value.values[k]) && path[|path| - 1] == id;
    assert value.values[k] in value.values;
    assert path[0] in IdsOf(value);
  }

  /** The value names the payload path, directly or through the metadata of a digest. */
  ghost predicate NamesPath(metadata: Metadata, value: Value, path: Path) {
    path in PayloadsOf(value)
    || exists id :: Reaches(metadata, value, id) && id in metadata && path in PayloadsOf(metadata[id])
  }

  /** The sets are exactly what the values name, directly or not. */
  ghost predicate ExactFor(metadata: Metadata, pending: set<Path>, values: set<Value>, ids: set<Id>, paths: set<Path>) {
    && (forall id :: id in ids <==> exists value :: value in values && Reaches(metadata, value, id))
    && (forall path :: path in paths <==>
          path in pending || exists value :: value in values && NamesPath(metadata, value, path))
  }

  lemma ReachesNext(metadata: Metadata, value: Value, id: Id, next: Id)
    requires Reaches(metadata, value, id) && id in metadata && next in IdsOf(metadata[id])
    ensures Reaches(metadata, value, next)
  {
    var path :| Chain(metadata, path) && path[0] in IdsOf(value) && path[|path| - 1] == id;
    assert Chain(metadata, path + [next]);
  }

  lemma ExactIsClosed(metadata: Metadata, pending: set<Path>, values: set<Value>, ids: set<Id>, paths: set<Path>)
    requires ExactFor(metadata, pending, values, ids, paths)
    ensures Closed(metadata, ids, paths)
  {
    forall id | id in ids && id in metadata
      ensures IdsOf(metadata[id]) <= ids && PayloadsOf(metadata[id]) <= paths
    {
      var value :| value in values && Reaches(metadata, value, id);
      forall next | next in IdsOf(metadata[id]) ensures next in ids {
        ReachesNext(metadata, value, id, next);
      }
      forall path | path in PayloadsOf(metadata[id]) ensures path in paths {
        assert NamesPath(metadata, value, path);
      }
    }
  }

  /** A closed set that covers a value holds all it names. */
  lemma ClosedHoldsAll(metadata: Metadata, value: Value, ids: set<Id>, paths: set<Path>)
    requires Closed(metadata, ids, paths) && IdsOf(value) <= ids && PayloadsOf(value) <= paths
    ensures forall id :: Reaches(metadata, value, id) ==> id in ids
    ensures forall path :: NamesPath(metadata, value, path) ==> path in paths
  {
    forall id | Reaches(metadata, value, id) ensures id in ids {
      var path :| Chain(metadata, path) && path[0] in IdsOf(value) && path[|path| - 1] == id;
      ClosedContains(metadata, ids, paths, path);
    }
  }

  // ---------------------------------------------------------------- the plan

  /** A retained payload and what inspecting it found. */
  datatype Payload = Payload(
    path: Path,
    young: bool,     // nothing names it, and its adoption grace has not passed
    held: bool,      // a running driver, an explicit hold or a process may use it
    broken: bool,    // its repository is busy, or its worktree dirty, locked or changed
    users: seq<Id>)  // the metadata that mentions its path or its source

  /** A link that keeps an artifact alive, named after a digest or an attempt. */
  datatype Root = Root(path: Path, id: Option<Id>, attempt: Option<nat>)

  predicate Removable(p: Payload) {
    !p.young && !p.held && !p.broken
  }

  function Without(actions: seq<Payload>, live: set<Path>): seq<Payload> {
    if actions == [] then []
    else Without(actions[..|actions| - 1], live) + (if actions[|actions| - 1].path in live then []
      else [actions[|actions| - 1]])
  }

  /** The removals a plan may hold: removable payloads, in order, that nothing live names. */
  function Planned(payloads: seq<Payload>, live: set<Path>): seq<Payload> {
    if payloads == [] then []
    else
      var last := payloads[|payloads| - 1];
      Planned(payloads[..|payloads| - 1], live) + (if Removable(last) && last.path !in live then [last] else [])
  }

  lemma {:induction false} PlannedIff(payloads: seq<Payload>, live: set<Path>, p: Payload)
    ensures p in Planned(payloads, live) <==> p in payloads && Removable(p) && p.path !in live
  {
    if payloads != [] {
      var init := payloads[..|payloads| - 1];
      assert payloads == init + [payloads[|payloads| - 1]];
      PlannedIff(init, live, p);
    }
  }

  /** Rejecting what became live later leaves the same plan as knowing it from the start. */
  ghost predicate Agrees(actions: seq<Payload>, payloads: seq<Payload>, live: set<Path>) {
    forall all: set<Path> :: live <= all ==> Without(actions, all) == Planned(payloads, all)
  }

  lemma AgreesSkip(actions: seq<Payload>, payloads: seq<Payload>, p: Payload, before: set<Path>, after: set<Path>)
    requires Agrees(actions, payloads, before) && before <= after
    requires !Removable(p) || p.path in after
    ensures Agrees(actions, payloads + [p], after)
  {
    forall all: set<Path> | after <= all ensures Without(actions, all) == Planned(payloads + [p], all) {
      assert (payloads + [p])[..|payloads|] == payloads;
    }
  }

  lemma AgreesKeep(actions: seq<Payload>, payloads: seq<Payload>, p: Payload, live: set<Path>)
    requires Agrees(actions, payloads, live) && Removable(p)
    ensures Agrees(actions + [p], payloads + [p], live)
  {
    forall all: set<Path> | live <= all ensures Without(actions + [p], all) == Planned(payloads + [p], all) {
      assert (payloads + [p])[..|payloads|] == payloads;
      assert (actions + [p])[..|actions|] == actions;
    }
  }

  // ---------------------------------------------------------------- the collector

  lemma {:induction false} Smaller(a: set<Id>, b: set<Id>)
    requires a <= b
    ensures |a| <= |b|
    decreases a
  {
    if x :| x in a {
      Smaller(a - {x}, b - {x});
    }
  }

  lemma Fewer(all: set<Id>, before: set<Id>, after: set<Id>)
    requires before <= after
    ensures |all - after| <= |all - before|
  {
    Smaller(all - after, all - before);
  }

  lemma FewerWith(all: set<Id>, before: set<Id>, id: Id)
    requires id in all && id !in before
    ensures |all - (before + {id})| < |all - before|
  {
    assert all - before == (all - (before + {id})) + {id};
  }

  /** What names a held payload is protected, and what names a broken one unless that was live when its turn came. */
  predicate Guarded(p: Payload, live: set<Path>) {
    !p.young && (p.held || (p.broken && p.path !in live))
  }

  ghost predicate UsersIn(metadata: Metadata, p: Payload, marked: set<Value>) {
    forall id :: id in p.users && id in metadata ==> metadata[id] in marked
  }

  ghost predicate SomeGuarded(payloads: seq<Payload>, before: seq<set<Path>>, k: int)
    requires k <= |before| <= |payloads|
  {
    exists h :: 0 <= h < k && Guarded(payloads[h], before[h])
  }

  /** A payload that is held, or broken and never became live, was guarded at its turn. */
  lemma TurnGuards(metadata: Metadata, payloads: seq<Payload>, start: set<Path>, before: seq<set<Path>>,
      live: set<Path>, marked: set<Value>, p: Payload)
    requires Turns(metadata, payloads, start, before, live, marked) && p in payloads
    requires !p.young && (p.held || (p.broken && p.path !in live))
    ensures UsersIn(metadata, p, marked)
  {
    var k :| 0 <= k < |payloads| && payloads[k] == p;
    assert before[k] <= live;
    hide UsersIn;
    assert Guarded(payloads[k], before[k]);
  }

  /**
   `before` are the live payloads at the turn of each payload: those at the start, until one is guarded. What names a
   guarded payload is marked.
   */
  ghost predicate Turns(metadata: Metadata, payloads: seq<Payload>, start: set<Path>, before: seq<set<Path>>,
      live: set<Path>, marked: set<Value>) {
    && |before| == |payloads| && start <= live && (live == start || SomeGuarded(payloads, before, |before|))
    && (forall k :: 0 <= k < |before| ==> start <= before[k] <= live)
    && (forall k :: 0 <= k < |before| ==> before[k] == start || SomeGuarded(payloads, before, k))
    && forall k :: 0 <= k < |before| && Guarded(payloads[k], before[k]) ==> UsersIn(metadata, payloads[k], marked)
  }

  lemma NextTurn(metadata: Metadata, payloads: seq<Payload>, p: Payload, start: set<Path>, before: seq<set<Path>>,
      live: set<Path>, after: set<Path>, marked: set<Value>, more: set<Value>)
    requires Turns(metadata, payloads, start, before, live, marked) && live <= after && marked <= more
    requires if Guarded(p, live) then UsersIn(metadata, p, more) else after == live
    ensures Turns(metadata, payloads + [p], start, before + [live], after, more)
  {
    var longer, turns := payloads + [p], before + [live];
    hide Guarded, UsersIn;
    forall k | 0 <= k < |turns| ensures turns[k] == start || SomeGuarded(longer, turns, k) {
      if turns[k] != start {
        assert SomeGuarded(payloads, before, k);
        var h :| 0 <= h < k && Guarded(payloads[h], before[h]);
        assert Guarded(longer[h], turns[h]);
      }
    }
    if after != start {
      if Guarded(p, live) {
        assert Guarded(longer[|before|], turns[|before|]);
      } else {
        assert turns[|before|] != start;
        var h :| 0 <= h < |before| && Guarded(longer[h], turns[h]);
      }
    }
    forall k | 0 <= k < |turns| && Guarded(longer[k], turns[k]) ensures UsersIn(metadata, longer[k], more) {
      if k < |before| {
        UsersGrow(metadata, payloads[k], marked, more);
      }
    }
  }

  lemma UsersGrow(metadata: Metadata, p: Payload, marked: set<Value>, more: set<Value>)
    requires UsersIn(metadata, p, marked) && marked <= more
    ensures UsersIn(metadata, p, more)
  {
  }

  class Collector {
    const metadata: Metadata
    const pending: set<Path>
    var liveIds: set<Id>
    var livePayloads: set<Path>
    ghost var marked: set<Value>

    /** Payloads whose interrupted removal belongs to an unfinished integration start out live. */
    constructor (metadata: Metadata, pending: set<Path>)
      ensures this.metadata == metadata && this.pending == pending && marked == {}
      ensures liveIds == {} && livePayloads == pending
      ensures Exact()
    {
      this.metadata, this.pending, liveIds, livePayloads, marked := metadata, pending, {}, pending, {};
    }

    /** The live sets are exactly what the marked values name, directly or not. */
    ghost predicate Exact()
      reads this
    {
      ExactFor(metadata, pending, marked, liveIds, livePayloads)
    }

    /** Everything named by digests that became live after `before` is live. */
    ghost predicate Settled(before: set<Id>)
      reads this
    {
      forall id :: id in liveIds - before && id in metadata ==> Covers(metadata[id])
    }

    ghost predicate Covers(value: Value)
      reads this
    {
      IdsOf(value) <= liveIds && PayloadsOf(value) <= livePayloads
    }

    /** What became live is named by the value. */
    ghost predicate Justified(value: Value, ids: set<Id>, paths: set<Path>)
      reads this
    {
      && ids <= liveIds && paths <= livePayloads
      && (forall id :: id in liveIds - ids ==> Reaches(metadata, value, id))
      && (forall path :: path in livePayloads - paths ==> NamesPath(metadata, value, path))
    }

    /** mark: it ends on any metadata, cyclic or not, because it follows a digest only once. */
    method Mark(value: Value)
      modifies `liveIds, `livePayloads
      ensures Covers(value) && Settled(old(liveIds)) && Justified(value, old(liveIds), old(livePayloads))
      decreases |metadata.Keys - liveIds|, value
    {
      if value.Text? {
        MarkText(value);
      } else {
        MarkMembers(value);
      }
    }

    /** A hash or an array: every member in turn. */
    method MarkMembers(value: Value)
      requires !value.Text?
      modifies `liveIds, `livePayloads
      ensures Covers(value) && Settled(old(liveIds)) && Justified(value, old(liveIds), old(livePayloads))
      decreases |metadata.Keys - liveIds|, value, 0
    {
      ghost var ids, paths := liveIds, livePayloads;
      for k := 0 to |value.values|
        invariant Settled(ids) && Justified(value, ids, paths)
        invariant forall j :: 0 <= j < k ==> Covers(value.values[j])
      {
        Fewer(metadata.Keys, ids, liveIds);
        ghost var ids1, paths1 := liveIds, livePayloads;
        assert value.values[k] in value.values;
        Mark(value.values[k]);
        JustifiedInside(value, k, ids, paths, ids1, paths1);
      }
    }

    /** A string: its payload paths, and each digest when it is first seen. */
    method MarkText(value: Value)
      requires value.Text?
      modifies `liveIds, `livePayloads
      ensures Covers(value) && Settled(old(liveIds)) && Justified(value, old(liveIds), old(livePayloads))
      decreases |metadata.Keys - liveIds|, value, 1
    {
      ghost var ids, paths := liveIds, livePayloads;
      livePayloads := livePayloads + value.payloads;
      for k := 0 to |value.ids|
        invariant Settled(ids) && Justified(value, ids, paths) && value.payloads <= livePayloads
        invariant forall j :: 0 <= j < k ==> value.ids[j] in liveIds
      {
        var id := value.ids[k];
        if id !in liveIds {
          Fewer(metadata.Keys, ids, liveIds);
          Follow(value, id, ids, paths);
        }
      }
    }

    /** Make a digest live together with everything its metadata names. */
    method Follow(value: Value, id: Id, ghost ids: set<Id>, ghost paths: set<Path>)
      requires id !in liveIds && id in IdsOf(value) && Settled(ids) && Justified(value, ids, paths)
      modifies `liveIds, `livePayloads
      ensures old(liveIds) <= liveIds && old(livePayloads) <= livePayloads && id in liveIds
      ensures Settled(ids) && Justified(value, ids, paths)
      decreases |metadata.Keys - liveIds|, value, 0
    {
      ReachesFirst(metadata, value, id);
      if id in metadata {
        FewerWith(metadata.Keys, liveIds, id);
      }
      liveIds := liveIds + {id};
      if id in metadata {
        ghost var ids1, paths1 := liveIds, livePayloads;
        Mark(metadata[id]);
        JustifiedThrough(value, id, ids, paths, ids1, paths1);
      }
    }

    lemma JustifiedInside(value: Value, k: nat, ids: set<Id>, paths: set<Path>, ids1: set<Id>, paths1: set<Path>)
      requires !value.Text? && k < |value.values| && ids <= ids1 && paths <= paths1
      requires forall id :: id in ids1 - ids ==> Reaches(metadata, value, id)
      requires forall path :: path in paths1 - paths ==> NamesPath(metadata, value, path)
      requires Justified(value.values[k], ids1, paths1)
      ensures Justified(value, ids, paths)
    {
      forall id | id in liveIds - ids ensures Reaches(metadata, value, id) {
        if id !in ids1 {
          ReachesInside(metadata, value, k, id);
        }
      }
      forall path | path in livePayloads - paths ensures NamesPath(metadata, value, path) {
        if path !in paths1 {
          assert NamesPath(metadata, value.values[k], path);
          if path in PayloadsOf(value.values[k]) {
            assert value.values[k] in value.values;
          } else {
            var id :| Reaches(metadata, value.values[k], id) && id in metadata && path in PayloadsOf(metadata[id]);
            ReachesInside(metadata, value, k, id);
          }
        }
      }
    }

    lemma JustifiedThrough(value: Value, id: Id, ids: set<Id>, paths: set<Path>, ids1: set<Id>, paths1: set<Path>)
      requires id in IdsOf(value) && id in metadata && ids <= ids1 && paths <= paths1
      requires forall x :: x in ids1 - ids ==> Reaches(metadata, value, x)
      requires forall path :: path in paths1 - paths ==> NamesPath(metadata, value, path)
      requires Justified(metadata[id], ids1, paths1)
      ensures Justified(value, ids, paths)
    {
      forall x | x in liveIds - ids ensures Reaches(metadata, value, x) {
        if x !in ids1 {
          ReachesThrough(metadata, value, id, x);
        }
      }
      forall path | path in livePayloads - paths ensures NamesPath(metadata, value, path) {
        if path !in paths1 {
          assert NamesPath(metadata, metadata[id], path);
          if path in PayloadsOf(metadata[id]) {
            ReachesFirst(metadata, value, id);
          } else {
            var x :| Reaches(metadata, metadata[id], x) && x in metadata && path in PayloadsOf(metadata[x]);
            ReachesThrough(metadata, value, id, x);
          }
        }
      }
    }

    /** A value that is live by itself: work in progress, or the user of a payload that must stay. */
    method MarkLive(value: Value)
      requires Exact()
      modifies this
      ensures Exact() && marked == old(marked) + {value}
      ensures old(livePayloads) <= livePayloads
    {
      ghost var ids, paths, values := liveIds, livePayloads, marked;
      ExactIsClosed(metadata, pending, marked, liveIds, livePayloads);
      Mark(value);
      ClosedHoldsAll(metadata, value, liveIds, livePayloads);
      marked := marked + {value};
      assert Exact() by {
        forall id | id in liveIds ensures exists v :: v in marked && Reaches(metadata, v, id) {
          if id in ids {
            var v :| v in values && Reaches(metadata, v, id);
          }
        }
        forall path | path in livePayloads && path !in pending
          ensures exists v :: v in marked && NamesPath(metadata, v, path)
        {
          if path in paths {
            var v :| v in values && NamesPath(metadata, v, path);
          }
        }
      }
    }

    /** mark_live: every root that is in use. */
    method MarkAll(roots: seq<Value>)
      requires Exact()
      modifies this
      ensures Exact() && marked == old(marked) + (set value | value in roots)
    {
      for k := 0 to |roots|
        invariant Exact() && marked == old(marked) + (set value | value in roots[..k])
      {
        MarkLive(roots[k]);
        assert roots[..k + 1] == roots[..k] + [roots[k]];
      }
      assert roots[..|roots|] == roots;
    }

    /** protect_payload: the metadata that mentions a payload keeps all it needs. */
    method Protect(p: Payload)
      requires Exact()
      modifies this
      ensures Exact() && old(livePayloads) <= livePayloads
      ensures marked == old(marked) + (set id | id in p.users && id in metadata :: metadata[id])
    {
      for k := 0 to |p.users|
        invariant Exact() && old(livePayloads) <= livePayloads
        invariant marked == old(marked) + (set id | id in p.users[..k] && id in metadata :: metadata[id])
      {
        assert p.users[..k + 1] == p.users[..k] + [p.users[k]];
        if p.users[k] in metadata {
          MarkLive(metadata[p.users[k]]);
        }
      }
      assert p.users[..|p.users|] == p.users;
    }

    /** plan, the payloads: a later protection withdraws a removal planned earlier. */
    method PlanPayloads(payloads: seq<Payload>) returns (actions: seq<Payload>, ghost before: seq<set<Path>>)
      requires Exact()
      modifies this
      ensures Exact() && old(marked) <= marked
      ensures actions == Planned(payloads, livePayloads)
      ensures Turns(metadata, payloads, old(livePayloads), before, livePayloads, marked)
    {
      actions, before := [], [];
      for k := 0 to |payloads|
        invariant Exact() && old(marked) <= marked
        invariant Agrees(actions, payloads[..k], livePayloads)
        invariant Turns(metadata, payloads[..k], old(livePayloads), before, livePayloads, marked)
      {
        var p := payloads[k];
        ghost var live, values := livePayloads, marked;
        assert payloads[..k + 1] == payloads[..k] + [p];
        Examine(p);
        NextTurn(metadata, payloads[..k], p, old(livePayloads), before, live, livePayloads, values, marked);
        before := before + [live];
        if p.young || p.held || p.broken || p.path in livePayloads {
          AgreesSkip(actions, payloads[..k], p, live, livePayloads);
        } else {
          AgreesKeep(actions, payloads[..k], p, live);
          actions := actions + [p];
        }
      }
      assert payloads[..|payloads|] == payloads;
      actions := Reject(actions);
    }

    /** One payload of the plan: what stands in the way of its removal, and whether that protects what names it. */
    method Examine(p: Payload)
      requires Exact()
      modifies this
      ensures Exact() && old(livePayloads) <= livePayloads && old(marked) <= marked
      ensures if Guarded(p, old(livePayloads)) then UsersIn(metadata, p, marked)
              else livePayloads == old(livePayloads) && marked == old(marked)
    {
      if p.young {
      } else if p.held {
        Protect(p);
      } else if p.path in livePayloads {
      } else if p.broken {
        Protect(p);
      }
    }

    /** Withdraw every removal of a payload that became live after it was planned. */
    method Reject(actions: seq<Payload>) returns (kept: seq<Payload>)
      ensures kept == Without(actions, livePayloads)
    {
      kept := [];
      for k := 0 to |actions|
        invariant kept == Without(actions[..k], livePayloads)
      {
        assert actions[..k + 1][..k] == actions[..k];
        if actions[k].path !in livePayloads {
          kept := kept + [actions[k]];
        }
      }
      assert actions[..|actions|] == actions;
    }

    predicate Known(root: Root, attempts: set<nat>) {
      || (root.id.Some? && root.id.value in metadata)
      || (root.attempt.Some? && root.attempt.value in attempts)
    }

    predicate Live(root: Root, attempts: set<nat>)
      reads this
    {
      || (root.id.Some? && root.id.value in liveIds)
      || (root.attempt.Some? && root.attempt.value in attempts)
    }

    /** plan, the links: those of known artifacts and attempts that are not live. */
    method PlanRoots(roots: seq<Root>, known: set<nat>, live: set<nat>) returns (actions: seq<Root>)
      ensures forall root :: root in actions <==> root in roots && Known(root, known) && !Live(root, live)
    {
      actions := [];
      for k := 0 to |roots|
        invariant forall root :: root in actions <==> root in roots[..k] && Known(root, known) && !Live(root, live)
      {
        if Known(roots[k], known) && !Live(roots[k], live) {
          actions := actions + [roots[k]];
        }
      }
    }

    /** mark_live and plan: nothing planned is needed by anything in use, directly or not. */
    method Sweep(roots: seq<Value>, payloads: seq<Payload>, links: seq<Root>, known: set<nat>, live: set<nat>)
        returns (worktrees: seq<Payload>, artifacts: seq<Root>, ghost start: set<Path>, ghost before: seq<set<Path>>)
      requires Exact()
      modifies this
      ensures Exact() && worktrees == Planned(payloads, livePayloads)
      ensures forall value, p :: value in roots && p in worktrees ==> !NamesPath(metadata, value, p.path)
      ensures forall value, link :: value in roots && link in artifacts && link.id.Some? ==>
        !Reaches(metadata, value, link.id.value)
      ensures forall path :: path in start && path !in pending ==>
        exists value :: (value in old(marked) || value in roots) && NamesPath(metadata, value, path)
      ensures Turns(metadata, payloads, start, before, livePayloads, marked)
      ensures forall p :: p in worktrees <==>
        p in payloads && !p.young && !p.held && !p.broken && p.path !in livePayloads
      ensures forall p :: p in payloads && !p.young && (p.held || (p.broken && p.path !in livePayloads)) ==>
        UsersIn(metadata, p, marked)
      ensures forall k, id, w ::
        0 <= k < |payloads| && Guarded(payloads[k], before[k]) && id in payloads[k].users && id in metadata &&
        w in worktrees ==>
          !NamesPath(metadata, metadata[id], w.path)
      ensures forall k, id, link ::
        0 <= k < |payloads| && Guarded(payloads[k], before[k]) && id in payloads[k].users && id in metadata &&
        link in artifacts && link.id.Some? ==>
          !Reaches(metadata, metadata[id], link.id.value)
      ensures forall link :: link in artifacts <==> link in links && Known(link, known) && !Live(link, live)
    {
      hide PayloadsOf, IdsOf, Reaches, NamesPath, Planned, ExactFor, Live, Known;
      MarkAll(roots);
      start := livePayloads;
      LiveIsNamed();
      worktrees, before := PlanPayloads(payloads);
      artifacts := PlanRoots(links, known, live);
      forall p | p in payloads && !p.young && (p.held || (p.broken && p.path !in livePayloads))
        ensures UsersIn(metadata, p, marked)
      {
        TurnGuards(metadata, payloads, start, before, livePayloads, marked, p);
      }
      forall p ensures p in worktrees <==>
        p in payloads && !p.young && !p.held && !p.broken && p.path !in livePayloads
      {
        PlannedIff(payloads, livePayloads, p);
      }
      forall p | p in worktrees ensures forall value :: value in marked ==> !NamesPath(metadata, value, p.path) {
        NothingMarkedNames(p.path);
      }
      forall link | link in artifacts && link.id.Some?
        ensures forall value :: value in marked ==> !Reaches(metadata, value, link.id.value)
      {
        NotLive(link, live);
        NothingMarkedReaches(link.id.value);
      }
    }

    lemma LiveIsNamed()
      requires Exact()
      ensures forall path :: path in livePayloads && path !in pending ==>
        exists value :: value in marked && NamesPath(metadata, value, path)
    {
    }

    lemma NothingMarkedNames(path: Path)
      requires Exact() && path !in livePayloads
      ensures forall value :: value in marked ==> !NamesPath(metadata, value, path)
    {
    }

    lemma NothingMarkedReaches(id: Id)
      requires Exact() && id !in liveIds
      ensures forall value :: value in marked ==> !Reaches(metadata, value, id)
    {
    }

    lemma NotLive(link: Root, live: set<nat>)
      requires !Live(link, live) && link.id.Some?
      ensures link.id.value !in liveIds
    {
    }
  }
}
