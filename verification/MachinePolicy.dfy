/**
 Names of contended resources (libexec/workspace-machine-identity.rb and
 Engine.normalized_resources). A legacy machine name may be an alias of another
 machine name, and a repository has a legacy spelling with a ref; two resources
 contend exactly when their normal forms agree.
 */
module MachinePolicy {
  import opened Wrappers

  datatype Resource =
    | Git(path: string)
    | Repo(name: string, ref: string)   // legacy spelling repo:NAME:refs/...
    | Repository(name: string)
    | Machine(name: string)
    | Profile(digest: string)

  type Aliases = map<Resource, Resource>

  /** One declared alias: a machine resource and the resource of its identity. */
  datatype Declaration = Declaration(resource: Resource, target: Resource)

  function Spelling(r: Resource): Resource {
    if r.Repo? then Repository(r.name) else r
  }

  /** The resource reached after at most `n` alias steps. */
  function Steps(a: Aliases, r: Resource, n: nat): Resource
    decreases n
  {
    if n == 0 || r !in a then r else Steps(a, a[r], n - 1)
  }

  ghost predicate Settles(a: Aliases, r: Resource) {
    exists n: nat :: Steps(a, r, n) !in a
  }

  /** Every chain of aliases ends. */
  ghost predicate Wellfounded(a: Aliases) {
    forall r :: r in a ==> Settles(a, r)
  }

  lemma {:induction false} StepsAdd(a: Aliases, r: Resource, m: nat, n: nat)
    ensures Steps(a, Steps(a, r, m), n) == Steps(a, r, m + n)
    decreases m
  {
    if m != 0 && r in a {
      StepsAdd(a, a[r], m - 1, n);
    }
  }

  /** Once a chain has ended, further steps do not move. */
  lemma SettledValue(a: Aliases, r: Resource, m: nat, n: nat)
    requires Steps(a, r, m) !in a && Steps(a, r, n) !in a
    ensures Steps(a, r, m) == Steps(a, r, n)
  {
    if m <= n {
      StepsAdd(a, r, m, n - m);
    } else {
      StepsAdd(a, r, n, m - n);
    }
  }

  /** A chain that meets an earlier member of itself never ends. */
  lemma {:induction false} CycleNeverSettles(a: Aliases, r: Resource, i: nat, k: nat, n: nat)
    requires i < k && Steps(a, r, i) == Steps(a, r, k)
    requires forall j: nat :: j < k ==> Steps(a, r, j) in a
    ensures Steps(a, r, n) in a
    decreases n
  {
    if n >= k {
      StepsAdd(a, r, k, n - k);
      StepsAdd(a, r, i, n - k);
      CycleNeverSettles(a, r, i, k, n - (k - i));
    }
  }

  /** The normal form used by a policy whose alias table was accepted; a name whose chain does not end is its own. */
  function Normal(a: Aliases, resource: Resource): Resource {
    var r := Spelling(resource);
    match Follow(a, r, {})
    case Success(v) => v
    case Refused(_) => r
  }

  /** Follow aliases, refusing to visit a resource twice. */
  function Follow(a: Aliases, resource: Resource, seen: set<Resource>): (r: Result<Resource>)
    ensures r.Success? ==> r.value !in a
    decreases |a.Keys - seen|
  {
    if resource !in a then Success(resource)
    else if resource in seen then Refused("cyclic legacy machine mapping")
    else
      assert a.Keys - (seen + {resource}) < a.Keys - seen;
      ShrinkingSet(a.Keys - (seen + {resource}), a.Keys - seen);
      Follow(a, a[resource], seen + {resource})
  }

  lemma ShrinkingSet(small: set<Resource>, big: set<Resource>)
    requires small < big
    ensures |small| < |big|
  {
    var x :| x in big && x !in small;
    assert small <= big - {x};
    SubsetSize(small, big - {x});
  }

  lemma {:induction false} SubsetSize(small: set<Resource>, big: set<Resource>)
    requires small <= big
    ensures |small| <= |big|
  {
    if x :| x in small {
      SubsetSize(small - {x}, big - {x});
    }
  }

  /** The names met on the first `k` steps. */
  ghost function Trail(a: Aliases, r: Resource, k: nat): set<Resource> {
    set i | 0 <= i < k :: Steps(a, r, i)
  }

  lemma {:induction false} FollowTrail(a: Aliases, r: Resource, k: nat)
    requires forall i: nat :: i < k ==> Steps(a, r, i) in a
    ensures var f := Follow(a, Steps(a, r, k), Trail(a, r, k));
            && (f.Success? ==> exists n: nat :: f.value == Steps(a, r, n))
            && (f.Success? <==> Settles(a, r))
    decreases |a.Keys - Trail(a, r, k)|
  {
    var here := Steps(a, r, k);
    if here !in a {
    } else if here in Trail(a, r, k) {
      var i: nat :| i < k && Steps(a, r, i) == here;
      forall n: nat ensures Steps(a, r, n) in a {
        CycleNeverSettles(a, r, i, k, n);
      }
    } else {
      StepsAdd(a, r, k, 1);
      assert Steps(a, here, 1) == a[here];
      assert Trail(a, r, k + 1) == Trail(a, r, k) + {here};
      ShrinkingSet(a.Keys - Trail(a, r, k + 1), a.Keys - Trail(a, r, k));
      FollowTrail(a, r, k + 1);
    }
  }

  /** `canonical` succeeds exactly on the chains that end, with the end of the chain, and it is idempotent. */
  lemma CanonicalExact(a: Aliases, r: Resource, n: nat)
    ensures Follow(a, r, {}).Success? <==> Settles(a, r)
    ensures Steps(a, r, n) !in a ==> Follow(a, r, {}) == Success(Steps(a, r, n))
  {
    assert Trail(a, r, 0) == {};
    FollowTrail(a, r, 0);
    if Steps(a, r, n) !in a {
      var m: nat :| Follow(a, r, {}).value == Steps(a, r, m);
      SettledValue(a, r, m, n);
    }
  }

  /** Alias targets are machine names, so a normal form has the current spelling. */
  ghost predicate MachineNames(a: Aliases) {
    forall r :: r in a ==> r.Machine? && a[r].Machine?
  }

  lemma {:induction false} StepsSpelling(a: Aliases, r: Resource, n: nat)
    requires MachineNames(a) && !r.Repo?
    ensures !Steps(a, r, n).Repo?
    decreases n
  {
    if n != 0 && r in a {
      StepsSpelling(a, a[r], n - 1);
    }
  }

  /** With an accepted table normalization cannot fail, and normal forms are fixed points of it. */
  lemma NormalIdempotent(a: Aliases, r: Resource)
    requires Wellfounded(a) && MachineNames(a)
    ensures Follow(a, Spelling(r), {}) == Success(Normal(a, r))
    ensures Normal(a, Normal(a, r)) == Normal(a, r)
  {
    var s := Spelling(r);
    assert Settles(a, s) by {
      if s !in a {
        assert Steps(a, s, 0) !in a;
      }
    }
    var n: nat :| Steps(a, s, n) !in a;
    CanonicalExact(a, s, n);
    StepsSpelling(a, s, n);
  }

  /** Two aliases of one name contend: an alias and its target have the same normal form. */
  lemma AliasContends(a: Aliases, r: Resource)
    requires Wellfounded(a) && MachineNames(a) && r in a
    ensures Normal(a, r) == Normal(a, a[r])
  {
    var n: nat :| Steps(a, r, n) !in a;
    CanonicalExact(a, r, n);
    assert Steps(a, a[r], n - 1) == Steps(a, r, n);
    CanonicalExact(a, a[r], n - 1);
  }

  /** Immutable alias table of one installed package. */
  class Policy {
    const aliases: Aliases

    ghost predicate Valid() {
      Wellfounded(aliases) && MachineNames(aliases)
    }

    constructor (aliases: Aliases)
      requires Wellfounded(aliases) && MachineNames(aliases)
      ensures this.aliases == aliases && Valid()
    {
      this.aliases := aliases;
    }

    /** Build the table, refuse an ambiguous name, then refuse a cyclic one. */
    static method Create(declared: seq<Declaration>) returns (r: Result<Policy>)
      requires forall d :: d in declared ==> d.resource.Machine? && d.target.Machine?
      ensures r.Success? <==>
                && (forall d, e :: d in declared && e in declared && d.resource == e.resource ==> d.target == e.target)
                && Wellfounded(Table(declared))
      ensures r.Success? ==> r.value.Valid() && r.value.aliases == Table(declared)
    {
      var table: Aliases := map[];
      for i := 0 to |declared|
        invariant table == Table(declared[..i])
        invariant forall d, e :: d in declared[..i] && e in declared[..i] && d.resource == e.resource ==>
          d.target == e.target
      {
        var item := declared[i];
        assert declared[..i + 1] == declared[..i] + [item];
        TableEntries(declared[..i]);
        if item.resource in table && table[item.resource] != item.target {
          ghost var other :| other in declared[..i] && other.resource == item.resource
            && table[item.resource] == other.target;
          assert item in declared && other in declared;
          return Refused("ambiguous legacy machine mapping");
        }
        table := table[item.resource := item.target];
      }
      assert declared[..|declared|] == declared;
      TableEntries(declared);
      var pending := table.Keys;
      while pending != {}
        invariant pending <= table.Keys
        invariant forall x :: x in table && x !in pending ==> Settles(table, x)
        decreases pending
      {
        var resource :| resource in pending;
        var c := Canonical(table, resource);
        if c.Refused? {
          return Refused(c.reason);
        }
        pending := pending - {resource};
      }
      var policy := new Policy(table);
      r := Success(policy);
    }

    /** Follow the aliases of one resource, remembering what was seen. */
    static method Canonical(aliases: Aliases, resource: Resource) returns (r: Result<Resource>)
      ensures r == Follow(aliases, resource, {})
      ensures r.Success? <==> Settles(aliases, resource)
      ensures r.Success? ==> r.value !in aliases && exists n: nat :: r.value == Steps(aliases, resource, n)
    {
      assert Trail(aliases, resource, 0) == {};
      FollowTrail(aliases, resource, 0);
      var current, seen := resource, {};
      while current in aliases
        invariant Follow(aliases, current, seen) == Follow(aliases, resource, {})
        decreases |aliases.Keys - seen|
      {
        if current in seen {
          return Refused("cyclic legacy machine mapping");
        }
        ShrinkingSet(aliases.Keys - (seen + {current}), aliases.Keys - seen);
        seen, current := seen + {current}, aliases[current];
      }
      r := Success(current);
    }

    /** The distinct normal forms, in order of first appearance. */
    method Normalize(resources: seq<Resource>) returns (r: seq<Resource>)
      requires Valid()
      ensures forall x :: x in r <==> exists s :: s in resources && x == Normal(aliases, s)
      ensures forall i, j :: 0 <= i < j < |r| ==> r[i] != r[j]
      ensures forall x :: x in r ==> Normal(aliases, x) == x
    {
      r := [];
      for i := 0 to |resources|
        invariant forall x :: x in r ==> exists s :: s in resources[..i] && x == Normal(aliases, s)
        invariant forall s :: s in resources[..i] ==> Normal(aliases, s) in r
        invariant forall j, k :: 0 <= j < k < |r| ==> r[j] != r[k]
        invariant forall x :: x in r ==> Normal(aliases, x) == x
      {
        NormalIdempotent(aliases, resources[i]);
        assert resources[..i + 1] == resources[..i] + [resources[i]];
        var c := Canonical(aliases, Spelling(resources[i]));
        if c.value !in r {
          r := r + [c.value];
        }
      }
      assert resources[..|resources|] == resources;
    }
  }

  /** The table a list of declarations means. */
  function Table(declared: seq<Declaration>): Aliases {
    if declared == [] then map[]
    else
      var last := declared[|declared| - 1];
      Table(declared[..|declared| - 1])[last.resource := last.target]
  }

  lemma {:induction false} TableEntries(declared: seq<Declaration>)
    ensures forall d :: d in declared ==> d.resource in Table(declared)
    ensures forall x :: x in Table(declared) ==>
      exists d :: d in declared && d.resource == x && Table(declared)[x] == d.target
  {
    if declared != [] {
      var init, last := declared[..|declared| - 1], declared[|declared| - 1];
      assert declared == init + [last];
      TableEntries(init);
    }
  }
}
