/** The ordering of modules by their dependencies in scripts/zephyr_module.py: modules without open
    dependencies are taken one after the other and struck from the dependency lists of the
    rest. */
module ModuleOrder {

  type Name = string

  /** The modules by name, in the order of the dictionary, and what each depends on. */
  type Depends = map<Name, seq<Name>>

  datatype Result = Sorted(order: seq<Name>) | Unmet(left: seq<Name>)

  ghost predicate Distinct(s: seq<Name>) {
    forall i, j | 0 <= i < j < |s| :: s[i] != s[j]
  }

  /** A set of modules none of which can ever be placed: each names a dependency twice, or one that
      does not exist, or one within the set. */
  ghost predicate Stuck(depends: Depends, s: set<Name>) {
    s != {} && forall m | m in s :: m in depends && Blocked(depends, s, m)
  }

  ghost predicate Blocked(depends: Depends, s: set<Name>, m: Name)
    requires m in depends
  {
    exists d :: d in depends[m] && (multiset(depends[m])[d] > 1 || d !in depends || d in s)
  }

  /** list.remove(): the first occurrence goes. */
  function RemoveFirst(s: seq<Name>, x: Name): (r: seq<Name>)
    requires x in s
    ensures multiset(r) == multiset(s) - multiset{x}
  {
    if s[0] == x then
      assert s == [s[0]] + s[1..];
      s[1..]
    else
      assert s == [s[0]] + s[1..];
      [s[0]] + RemoveFirst(s[1..], x)
  }

  lemma {:induction false} CountOne(s: seq<Name>, x: Name)
    requires Distinct(s)
    ensures multiset(s)[x] <= 1
    decreases s
  {
    if s != [] {
      assert s == [s[0]] + s[1..];
      CountOne(s[1..], x);
      assert x == s[0] ==> x !in s[1..];
    }
  }

  /** The state of the sort: every module is sorted, ready or waiting; the ready and the sorted ones
      have all their dependencies sorted, before them; and the list of a waiting one holds what
      is left of its dependencies. */
  ghost predicate Sorting(
    names: seq<Name>, depends: Depends, start: seq<Name>, dep: seq<Name>, open: Depends, sorted: seq<Name>)
  {
    && multiset(sorted) + multiset(start) + multiset(dep) == multiset(names)
    && (forall m | m in dep :: Waits(depends, open, sorted, m))
    && (forall m | m in start :: Met(depends, sorted, m))
    && (forall k | 0 <= k < |sorted| :: Met(depends, sorted[..k], sorted[k]))
  }

  ghost predicate Waits(depends: Depends, open: Depends, sorted: seq<Name>, m: Name) {
    m in depends && m in open && open[m] != [] && multiset(open[m]) == multiset(depends[m]) - multiset(sorted)
  }

  /** All dependencies are among the sorted ones, and each is named once. */
  ghost predicate Met(depends: Depends, sorted: seq<Name>, m: Name) {
    m in depends && multiset(depends[m]) <= multiset(sorted)
  }

  /** Within one round: what is left of a list once `node` is sorted too. */
  lemma {:induction false} Struck(deps: seq<Name>, open: seq<Name>, sorted: seq<Name>, node: Name)
    requires multiset(open) == multiset(deps) - multiset(sorted)
    ensures node in open ==> multiset(RemoveFirst(open, node)) == multiset(deps) - multiset(sorted + [node])
    ensures node !in open ==> multiset(open) == multiset(deps) - multiset(sorted + [node])
  {
    hide RemoveFirst;
    assert node in open <==> node in multiset(open);
  }

  /** The list of a module has been gone through in this round. */
  ghost predicate Done(depends: Depends, open: Depends, sorted: seq<Name>, ready: seq<Name>, m: Name) {
    && m in open && m in depends
    && multiset(open[m]) == multiset(depends[m]) - multiset(sorted)
    && (open[m] == [] <==> m in ready)
  }

  /** The two inner loops: `node` is struck from every list; modules whose list is now empty are ready. */
  method Strike(node: Name, dep: seq<Name>, open: Depends, ghost depends: Depends, ghost sorted: seq<Name>)
    returns (dep': seq<Name>, open': Depends, ready: seq<Name>)
    requires Distinct(dep) && forall m | m in dep :: Waits(depends, open, sorted, m)
    ensures multiset(dep') + multiset(ready) == multiset(dep)
    ensures forall m | m in dep' :: Waits(depends, open', sorted + [node], m)
    ensures forall m | m in ready :: Met(depends, sorted + [node], m)
  {
    hide RemoveFirst, Waits, Done;
    open', ready := open, [];
    for i := 0 to |dep|
      invariant forall j | i <= j < |dep| :: Waits(depends, open', sorted, dep[j])
      invariant forall j | 0 <= j < i :: Done(depends, open', sorted + [node], ready, dep[j])
      invariant multiset(ready) <= multiset(dep[..i])
    {
      var m := dep[i];
      WaitsOpen(depends, open', sorted, m);
      ghost var open0, ready0 := open', ready;
      if node in open'[m] {
        open' := open'[m := RemoveFirst(open'[m], node)];
        if open'[m] == [] { ready := ready + [m]; }
      }
      StrikeOne(dep, depends, open0, sorted, node, ready0, i, open', ready);
    }
    assert dep[..|dep|] == dep;
    dep' := RemoveAll(dep, ready);
    Remains(dep, dep', ready, open', depends, sorted + [node]);
  }

  lemma {:induction false} WaitsOpen(depends: Depends, open: Depends, sorted: seq<Name>, m: Name)
    requires Waits(depends, open, sorted, m)
    ensures m in open && m in depends
  {
  }

  lemma {:induction false} StrikeOne(
    dep: seq<Name>, depends: Depends, open: Depends, sorted: seq<Name>, node: Name, ready: seq<Name>, i: nat,
    open': Depends, ready': seq<Name>)
    requires Distinct(dep) && i < |dep|
    requires forall j | i <= j < |dep| :: Waits(depends, open, sorted, dep[j])
    requires forall j | 0 <= j < i :: Done(depends, open, sorted + [node], ready, dep[j])
    requires multiset(ready) <= multiset(dep[..i]) && dep[i] in open
    requires open' == if node in open[dep[i]] then open[dep[i] := RemoveFirst(open[dep[i]], node)] else open
    requires ready' == if node in open[dep[i]] && open'[dep[i]] == [] then ready + [dep[i]] else ready
    ensures forall j | i + 1 <= j < |dep| :: Waits(depends, open', sorted, dep[j])
    ensures forall j | 0 <= j < i + 1 :: Done(depends, open', sorted + [node], ready', dep[j])
    ensures multiset(ready') <= multiset(dep[..i + 1])
  {
    hide RemoveFirst, Waits, Done;
    var m := dep[i];
    assert dep[..i + 1] == dep[..i] + [m];
    NotYetReady(dep, ready, i);
    assert Waits(depends, open, sorted, m);
    StrikeSelf(depends, open, sorted, node, ready, m, open', ready');
    forall j | 0 <= j < i ensures Done(depends, open', sorted + [node], ready', dep[j]) {
      assert dep[j] != m;
      DoneOpen(depends, open, sorted + [node], ready, dep[j]);
      DoneStays(depends, open, sorted + [node], ready, dep[j], m, open', ready');
    }
    forall j | i + 1 <= j < |dep| ensures Waits(depends, open', sorted, dep[j]) {
      assert dep[j] != m;
      WaitsOpen(depends, open, sorted, dep[j]);
      WaitsStays(depends, open, sorted, dep[j], open');
    }
  }

  lemma {:induction false} NotYetReady(dep: seq<Name>, ready: seq<Name>, i: nat)
    requires Distinct(dep) && i < |dep| && multiset(ready) <= multiset(dep[..i])
    ensures dep[i] !in ready
  {
    assert dep[i] !in dep[..i];
    assert dep[i] !in multiset(dep[..i]);
    assert dep[i] !in multiset(ready);
  }

  lemma {:induction false} StrikeSelf(
    depends: Depends, open: Depends, sorted: seq<Name>, node: Name, ready: seq<Name>, m: Name, open': Depends, ready': seq<Name>)
    requires Waits(depends, open, sorted, m) && m !in ready
    requires open' == if node in open[m] then open[m := RemoveFirst(open[m], node)] else open
    requires ready' == if node in open[m] && open'[m] == [] then ready + [m] else ready
    ensures Done(depends, open', sorted + [node], ready', m)
  {
    hide RemoveFirst;
    Struck(depends[m], open[m], sorted, node);
  }

  lemma {:induction false} DoneOpen(depends: Depends, open: Depends, sorted: seq<Name>, ready: seq<Name>, m: Name)
    requires Done(depends, open, sorted, ready, m)
    ensures m in open
  {
  }

  lemma {:induction false} DoneStays(
    depends: Depends, open: Depends, sorted: seq<Name>, ready: seq<Name>, u: Name, m: Name, open': Depends, ready': seq<Name>)
    requires Done(depends, open, sorted, ready, u) && u != m
    requires u in open' && open'[u] == open[u] && (ready' == ready || ready' == ready + [m])
    ensures Done(depends, open', sorted, ready', u)
  {
  }

  lemma {:induction false} WaitsStays(depends: Depends, open: Depends, sorted: seq<Name>, u: Name, open': Depends)
    requires Waits(depends, open, sorted, u) && u in open' && open'[u] == open[u]
    ensures Waits(depends, open', sorted, u)
  {
  }

  method RemoveAll(dep: seq<Name>, ready: seq<Name>) returns (r: seq<Name>)
    requires multiset(ready) <= multiset(dep)
    ensures multiset(r) + multiset(ready) == multiset(dep)
  {
    hide RemoveFirst;
    r := dep;
    for i := 0 to |ready|
      invariant multiset(r) + multiset(ready[..i]) == multiset(dep)
    {
      assert ready[..i + 1] == ready[..i] + [ready[i]];
      StillThere(dep, ready, i, r);
      r := RemoveFirst(r, ready[i]);
    }
    assert ready[..|ready|] == ready;
  }

  lemma {:induction false} StillThere(dep: seq<Name>, ready: seq<Name>, i: nat, r: seq<Name>)
    requires i < |ready| && multiset(ready) <= multiset(dep) && multiset(r) + multiset(ready[..i]) == multiset(dep)
    ensures ready[i] in r
  {
    var x := ready[i];
    assert ready == ready[..i] + [x] + ready[i + 1..];
    assert multiset(ready)[x] >= multiset(ready[..i])[x] + 1;
    assert multiset(r)[x] + multiset(ready[..i])[x] == multiset(dep)[x];
    assert x in multiset(r);
  }

  lemma {:induction false} Remains(dep: seq<Name>, dep': seq<Name>, ready: seq<Name>, open: Depends, depends: Depends, sorted: seq<Name>)
    requires Distinct(dep) && multiset(dep') + multiset(ready) == multiset(dep)
    requires forall j | 0 <= j < |dep| :: Done(depends, open, sorted, ready, dep[j])
    ensures forall m | m in dep' :: Waits(depends, open, sorted, m)
    ensures forall m | m in ready :: Met(depends, sorted, m)
  {
    forall m | m in dep' ensures Waits(depends, open, sorted, m) {
      assert m in multiset(dep') && m in multiset(dep);
      var j :| 0 <= j < |dep| && dep[j] == m;
      assert Done(depends, open, sorted, ready, dep[j]);
      CountOne(dep, m);
      assert m !in multiset(ready);
    }
    forall m | m in ready ensures Met(depends, sorted, m) {
      assert m in multiset(ready) && m in multiset(dep);
      var j :| 0 <= j < |dep| && dep[j] == m;
      assert Done(depends, open, sorted, ready, dep[j]);
      NothingLeft(depends[m], open[m], sorted);
    }
  }

  lemma {:induction false} NothingLeft(deps: seq<Name>, open: seq<Name>, sorted: seq<Name>)
    requires open == [] && multiset(open) == multiset(deps) - multiset(sorted)
    ensures multiset(deps) <= multiset(sorted)
  {
    forall d ensures multiset(deps)[d] <= multiset(sorted)[d] {
      assert multiset(open)[d] == 0;
    }
  }

  /** The sort in parse_modules(), over the modules by name.  It succeeds if and only if there is no
      stuck set; then the result holds every module once, behind all its dependencies. */
  method Sort(names: seq<Name>, depends: Depends) returns (r: Result)
    requires Distinct(names) && forall m :: m in depends <==> m in names
    ensures r.Sorted? <==> !exists s :: Stuck(depends, s)
    ensures r.Sorted? ==> multiset(r.order) == multiset(names) && forall k | 0 <= k < |r.order| :: r.order[k] in depends
    ensures r.Sorted? ==> forall k, d | 0 <= k < |r.order| && d in depends[r.order[k]] :: d in r.order[..k]
    ensures r.Unmet? ==> r.left != [] && Stuck(depends, set m | m in r.left)
  {
    hide Sorting, Stuck, Blocked;
    var start, dep, sorted, open := [], [], [], depends;
    for i := 0 to |names|
      invariant multiset(start) + multiset(dep) == multiset(names[..i])
      invariant forall m | m in start :: m in depends && depends[m] == []
      invariant forall m | m in dep :: m in depends && depends[m] != []
    {
      assert names[..i + 1] == names[..i] + [names[i]];
      if depends[names[i]] == [] { start := start + [names[i]]; } else { dep := dep + [names[i]]; }
    }
    assert names[..|names|] == names;
    StartSorting(names, depends, start, dep);
    while start != []
      invariant Sorting(names, depends, start, dep, open, sorted)
      decreases |names| - |sorted|
    {
      var node := start[0];
      PartsDistinct(names, depends, start, dep, open, sorted);
      ghost var open0, dep0, start0 := open, dep, start;
      var ready;
      dep, open, ready := Strike(node, dep, open, depends, sorted);
      NextRound(names, depends, start, dep0, open0, sorted, dep, open, ready);
      start := start[1..] + ready;
      sorted := sorted + [node];
    }
    if dep != [] {
      LeftStuck(names, depends, dep, open, sorted);
      r := Unmet(dep);
    } else {
      AllSorted(names, depends, open, sorted);
      r := Sorted(sorted);
    }
  }

  lemma {:induction false} StartSorting(names: seq<Name>, depends: Depends, start: seq<Name>, dep: seq<Name>)
    requires multiset(start) + multiset(dep) == multiset(names)
    requires forall m | m in start :: m in depends && depends[m] == []
    requires forall m | m in dep :: m in depends && depends[m] != []
    ensures Sorting(names, depends, start, dep, depends, [])
  {
  }

  lemma {:induction false} PartsDistinct(
    names: seq<Name>, depends: Depends, start: seq<Name>, dep: seq<Name>, open: Depends, sorted: seq<Name>)
    requires Distinct(names) && Sorting(names, depends, start, dep, open, sorted)
    ensures Distinct(dep) && (forall m | m in dep :: Waits(depends, open, sorted, m))
    ensures |sorted| + |start| + |dep| == |names|
  {
    SizesAdd(sorted, start, dep, names);
    forall i, j | 0 <= i < j < |dep| ensures dep[i] != dep[j] {
      CountOne(names, dep[i]);
      assert multiset(names)[dep[i]] >= multiset(dep)[dep[i]];
      if dep[i] == dep[j] { TwiceCounts(dep, i, j); }
    }
  }

  lemma {:induction false} SizesAdd(a: seq<Name>, b: seq<Name>, c: seq<Name>, d: seq<Name>)
    requires multiset(a) + multiset(b) + multiset(c) == multiset(d)
    ensures |a| + |b| + |c| == |d|
  {
    assert |multiset(a) + multiset(b) + multiset(c)| == |multiset(d)|;
  }

  lemma {:induction false} TwiceCounts(s: seq<Name>, i: nat, j: nat)
    requires i < j < |s| && s[i] == s[j]
    ensures multiset(s)[s[i]] >= 2
  {
    assert s == s[..i] + [s[i]] + s[i + 1..j] + [s[j]] + s[j + 1..];
  }

  lemma {:induction false} NextRound(
    names: seq<Name>, depends: Depends, start: seq<Name>, dep: seq<Name>, open: Depends, sorted: seq<Name>,
    dep': seq<Name>, open': Depends, ready: seq<Name>)
    requires Sorting(names, depends, start, dep, open, sorted) && start != []
    requires multiset(dep') + multiset(ready) == multiset(dep)
    requires forall m | m in dep' :: Waits(depends, open', sorted + [start[0]], m)
    requires forall m | m in ready :: Met(depends, sorted + [start[0]], m)
    ensures Sorting(names, depends, start[1..] + ready, dep', open', sorted + [start[0]])
  {
    var node, sorted' := start[0], sorted + [start[0]];
    assert start == [node] + start[1..];
    forall k | 0 <= k < |sorted'| ensures Met(depends, sorted'[..k], sorted'[k]) {
      if k < |sorted| {
        assert sorted'[..k] == sorted[..k];
      } else {
        assert sorted'[..k] == sorted && node in start;
      }
    }
    forall m | m in start[1..] + ready ensures Met(depends, sorted', m) {
      assert m in start[1..] ==> Met(depends, sorted, m);
    }
  }

  /** What is left when nothing is ready is a stuck set. */
  lemma {:induction false} LeftStuck(names: seq<Name>, depends: Depends, dep: seq<Name>, open: Depends, sorted: seq<Name>)
    requires Distinct(names) && (forall m :: m in depends <==> m in names)
    requires Sorting(names, depends, [], dep, open, sorted) && dep != []
    ensures Stuck(depends, set m | m in dep)
  {
    var s := set m | m in dep;
    assert dep[0] in s;
    forall m | m in s ensures m in depends && Blocked(depends, s, m) {
      assert Waits(depends, open, sorted, m);
      var d := open[m][0];
      OpenBlocks(names, depends, dep, open, sorted, m, d);
    }
  }

  lemma {:induction false} OpenBlocks(
    names: seq<Name>, depends: Depends, dep: seq<Name>, open: Depends, sorted: seq<Name>, m: Name, d: Name)
    requires Distinct(names) && (forall x :: x in depends <==> x in names)
    requires Sorting(names, depends, [], dep, open, sorted) && m in dep && Waits(depends, open, sorted, m) && d in open[m]
    ensures d in depends[m] && (multiset(depends[m])[d] > 1 || d !in depends || d in dep)
  {
    assert d in multiset(open[m]);
    assert multiset(depends[m])[d] > multiset(sorted)[d];
    assert d in multiset(depends[m]);
    if d in depends && d !in dep {
      assert d in multiset(names) && d !in multiset(dep);
      assert d in multiset(sorted);
    }
  }

  /** If everything is sorted, no set is stuck: its first member would be behind all its
      dependencies, hence behind another member. */
  lemma {:induction false} AllSorted(names: seq<Name>, depends: Depends, open: Depends, sorted: seq<Name>)
    requires Distinct(names) && (forall m :: m in depends <==> m in names)
    requires Sorting(names, depends, [], [], open, sorted)
    ensures !exists s :: Stuck(depends, s)
    ensures multiset(sorted) == multiset(names)
    ensures forall m | m in sorted :: m in depends
    ensures forall k, d | 0 <= k < |sorted| && d in depends[sorted[k]] :: d in sorted[..k]
  {
    assert multiset(sorted) == multiset(names);
    forall k, d | 0 <= k < |sorted| && sorted[k] in depends && d in depends[sorted[k]] ensures d in sorted[..k] {
      assert Met(depends, sorted[..k], sorted[k]);
      assert d in multiset(depends[sorted[k]]);
      assert d in multiset(sorted[..k]);
    }
    forall m | m in sorted ensures m in depends { assert m in multiset(sorted); }
    forall s ensures !Stuck(depends, s) {
      if Stuck(depends, s) {
        var k := FirstMember(names, depends, sorted, s);
        NotBlocked(names, depends, sorted, s, k);
      }
    }
  }

  lemma {:induction false} FirstMember(names: seq<Name>, depends: Depends, sorted: seq<Name>, s: set<Name>) returns (k: nat)
    requires Stuck(depends, s) && multiset(sorted) == multiset(names) && forall m :: m in depends <==> m in names
    ensures k < |sorted| && sorted[k] in s && forall j | 0 <= j < k :: sorted[j] !in s
  {
    var m :| m in s;
    assert m in multiset(names) && m in multiset(sorted);
    var n :| 0 <= n < |sorted| && sorted[n] == m;
    k := 0;
    while sorted[k] !in s
      invariant k <= n && forall j | 0 <= j < k :: sorted[j] !in s
      decreases n - k
    {
      k := k + 1;
    }
  }

  lemma {:induction false} NotBlocked(names: seq<Name>, depends: Depends, sorted: seq<Name>, s: set<Name>, k: nat)
    requires Distinct(names) && multiset(sorted) == multiset(names) && (forall m :: m in depends <==> m in names)
    requires k < |sorted| && Met(depends, sorted[..k], sorted[k]) && forall j | 0 <= j < k :: sorted[j] !in s
    ensures sorted[k] in depends && !Blocked(depends, s, sorted[k])
  {
    var m := sorted[k];
    forall d | d in depends[m] ensures multiset(depends[m])[d] <= 1 && d in depends && d !in s {
      assert d in multiset(depends[m]) && d in multiset(sorted[..k]);
      assert sorted == sorted[..k] + sorted[k..];
      CountOne(names, d);
      assert d in multiset(names);
    }
  }

  /** A dependency listed twice is never resolved, whether or not it exists: the module alone is a
      stuck set. */
  lemma {:induction false} DuplicateSticks(depends: Depends, m: Name, i: nat, j: nat)
    requires m in depends && i < j < |depends[m]| && depends[m][i] == depends[m][j]
    ensures Stuck(depends, {m})
  {
    var s, d := depends[m], depends[m][i];
    assert s == s[..j] + s[j..];
    assert d in s[..j] && d in s[j..];
    assert multiset(s)[d] == multiset(s[..j])[d] + multiset(s[j..])[d];
    assert Blocked(depends, {m}, m);
  }

  /** Without such lists a set is stuck exactly if each member depends on a module that is missing or
      within the set. */
  lemma {:induction false} StuckPlainly(depends: Depends, s: set<Name>)
    requires forall m | m in depends :: Distinct(depends[m])
    ensures Stuck(depends, s) <==> s != {} && forall m | m in s :: m in depends && Lacks(depends, s, m)
  {
    forall m | m in s && m in depends ensures Blocked(depends, s, m) <==> Lacks(depends, s, m) {
      if Blocked(depends, s, m) {
        var d :| d in depends[m] && (multiset(depends[m])[d] > 1 || d !in depends || d in s);
        CountOne(depends[m], d);
      }
    }
  }

  ghost predicate Lacks(depends: Depends, s: set<Name>, m: Name)
    requires m in depends
  {
    exists d :: d in depends[m] && (d !in depends || d in s)
  }
}
