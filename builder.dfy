/** The builder of walrus/packages/package_builder.py: dependency population
    and the recursive, cache-memoised post-order build of a package's
    dependency tree.

    The collaborators are abstract. The cache is `CacheBase.Cache`, whose state
    is the set of package identities it holds; the compiler is an oracle saying
    whether a package compiles; the packages form a static dependency graph from
    a package name to its ordered dependency names and its build directory.
    The builder records every call it makes to these collaborators in `trace`. */
module PackageBuilder {
  import Wrappers
  import CacheBase

  /** A call of the builder to one of its collaborators. */
  datatype Event =
    | Link(name: string, dir: string)  // the cache links dependency `name` into build directory `dir`
    | Compile(name: string)            // the compiler is run on package `name`
    | Add(name: string)                // package `name` is added to the cache
    | Get(name: string)                // the cache gets dependency `name`
    | Fetch(name: string)              // the cache fetches dependency `name`

  /** What the builder reads from a package: `list_deps()` (and `deps`, in
      declaration order) and `config.path`. */
  datatype PackageInfo = PackageInfo(deps: seq<string>, buildDir: string)

  type Graph = map<string, PackageInfo>

  /** How `build_tree` ends: it returns a boolean or raises `RuntimeError`
      naming the dependency whose build returned false. */
  datatype Status = Returned(value: bool) | Raised(failedDep: string)

  /** The result of a (specified) run: how it ended, the cache contents after
      it, and the calls it made. */
  datatype Run = Run(status: Status, cached: set<string>, events: seq<Event>)

  /** The static world a build runs in. The source has no cycle guard: on a
      cycle its recursion goes on until Python's recursion limit raises
      `RecursionError`. The model excludes cycles instead, by requiring the graph
      to be ranked: every dependency has a smaller rank than its dependent. */
  datatype Env = Env(graph: Graph, rank: map<string, nat>, compiles: string -> bool) {
    ghost predicate Valid()
    {
      forall p :: p in graph ==>
        && p in rank
        && forall i :: 0 <= i < |graph[p].deps| ==>
             graph[p].deps[i] in graph && graph[p].deps[i] in rank && rank[graph[p].deps[i]] < rank[p]
    }
  }

  // ---------------------------------------------------------------------------
  // Specification of build_tree.

  /** `build_tree(p)` starting from cache contents `c`. */
  ghost function Build(e: Env, p: string, c: set<string>): Run
    requires e.Valid() && p in e.graph
    decreases e.rank[p], 1, 0
  {
    if p in c then Run(Returned(true), c, [])
    else
      var l := DepsLoop(e, p, |e.graph[p].deps|, c);
      if l.status.Raised? then l
      else
        var ok := e.compiles(p);
        Run(Returned(ok), if ok then l.cached + {p} else l.cached,
            l.events + CompileTail(e.compiles, p))
  }

  /** The loop of `build_tree(p)` over the first `k` dependencies: a dependency
      that is not cached is built first, and a failed build raises; then the
      dependency is linked into `p`'s build directory. */
  ghost function DepsLoop(e: Env, p: string, k: nat, c: set<string>): Run
    requires e.Valid() && p in e.graph && k <= |e.graph[p].deps|
    decreases e.rank[p], 0, k
  {
    if k == 0 then Run(Returned(true), c, [])
    else
      var prev := DepsLoop(e, p, k - 1, c);
      if prev.status.Raised? then prev
      else
        var d := e.graph[p].deps[k - 1];
        Step(prev, Sub(e, d, prev.cached), d, e.graph[p].buildDir)
  }

  /** What the loop does for dependency `d` when it is not cached: build it. */
  ghost function Sub(e: Env, d: string, c: set<string>): Run
    requires e.Valid() && d in e.graph
    decreases e.rank[d], 2, 0
  {
    if d in c then Run(Returned(true), c, []) else Build(e, d, c)
  }

  /** One iteration of the loop, after `prev`, with `sub` the run of the
      dependency's build: a false result raises naming `d`, a raise propagates,
      and otherwise `d` is linked into `dir`. */
  function Step(prev: Run, sub: Run, d: string, dir: string): Run
  {
    if sub.status == Returned(false) then Run(Raised(d), sub.cached, prev.events + sub.events)
    else if sub.status.Raised? then Run(sub.status, sub.cached, prev.events + sub.events)
    else Run(Returned(true), sub.cached, prev.events + sub.events + [Link(d, dir)])
  }

  /** Once the loop has raised, later dependencies change nothing. */
  lemma {:induction false} RaisedSticks(e: Env, p: string, k: nat, m: nat, c: set<string>)
    requires e.Valid() && p in e.graph && k <= m <= |e.graph[p].deps|
    requires DepsLoop(e, p, k, c).status.Raised?
    ensures DepsLoop(e, p, m, c) == DepsLoop(e, p, k, c)
    decreases m
  {
    if m > k {
      RaisedSticks(e, p, k, m - 1, c);
    }
  }

  /** The loop over the first `k + 1` dependencies, when the first `k` ran
      through and dependency `k` is built from scratch and does not return
      true: the whole build ends as that iteration does. */
  lemma LoopRaises(e: Env, p: string, k: nat, c: set<string>)
    requires e.Valid() && p in e.graph && p !in c && k < |e.graph[p].deps|
    requires DepsLoop(e, p, k, c).status == Returned(true)
    requires e.graph[p].deps[k] !in DepsLoop(e, p, k, c).cached
    requires Build(e, e.graph[p].deps[k], DepsLoop(e, p, k, c).cached).status != Returned(true)
    ensures var prev := DepsLoop(e, p, k, c);
      var d := e.graph[p].deps[k];
      var sub := Build(e, d, prev.cached);
      Build(e, p, c) == Run(if sub.status == Returned(false) then Raised(d) else sub.status, sub.cached, prev.events + sub.events)
  {
    RaisedSticks(e, p, k + 1, |e.graph[p].deps|, c);
  }

  /** The loop over the first `k + 1` dependencies, when the first `k` ran
      through and dependency `k` is cached or builds: it is linked. */
  lemma LoopLinks(e: Env, p: string, k: nat, c: set<string>, sub: Run)
    requires e.Valid() && p in e.graph && k < |e.graph[p].deps|
    requires DepsLoop(e, p, k, c).status == Returned(true)
    requires sub == Sub(e, e.graph[p].deps[k], DepsLoop(e, p, k, c).cached) && sub.status == Returned(true)
    ensures DepsLoop(e, p, k + 1, c)
         == Run(Returned(true), sub.cached, DepsLoop(e, p, k, c).events + sub.events + [Link(e.graph[p].deps[k], e.graph[p].buildDir)])
  {
  }

  /** A build whose loop ran through compiles the package, and adds it when it
      compiled. */
  lemma BuildCompiles(e: Env, p: string, c: set<string>)
    requires e.Valid() && p in e.graph && p !in c
    requires DepsLoop(e, p, |e.graph[p].deps|, c).status == Returned(true)
    ensures var l := DepsLoop(e, p, |e.graph[p].deps|, c);
      Build(e, p, c) == Run(Returned(e.compiles(p)), if e.compiles(p) then l.cached + {p} else l.cached,
                            l.events + CompileTail(e.compiles, p))
  {
  }

  // ---------------------------------------------------------------------------
  // Properties of a trace.

  /** The packages a trace adds to the cache. */
  ghost function Added(t: seq<Event>): set<string>
  {
    if t == [] then {} else Added(t[..|t| - 1]) + (if t[|t| - 1].Add? then {t[|t| - 1].name} else {})
  }

  lemma {:induction false} AddedAppend(a: seq<Event>, b: seq<Event>)
    ensures Added(a + b) == Added(a) + Added(b)
    decreases |b|
  {
    if b == [] {
      assert a + b == a;
    } else {
      assert (a + b)[..|a + b| - 1] == a + b[..|b| - 1];
      AddedAppend(a, b[..|b| - 1]);
    }
  }

  /** Every package a trace adds is added at some position of it. */
  lemma {:induction false} AddedWitness(t: seq<Event>, x: string) returns (i: nat)
    requires x in Added(t)
    ensures i < |t| && t[i] == Add(x)
    decreases |t|
  {
    if t[|t| - 1] == Add(x) {
      i := |t| - 1;
    } else {
      i := AddedWitness(t[..|t| - 1], x);
    }
  }

  /** An add event at position `i` is in what every longer prefix adds. */
  lemma AddedAt(t: seq<Event>, i: nat, j: nat)
    requires i < j <= |t| && t[i].Add?
    ensures t[i].name in Added(t[..j])
  {
    assert t[..j] == t[..i + 1] + t[i + 1..j];
    AddedAppend(t[..i + 1], t[i + 1..j]);
    assert t[..i + 1][..i] == t[..i];
  }

  /** Every event's package has a rank below `n`. */
  ghost predicate Below(e: Env, t: seq<Event>, n: nat)
  {
    forall j :: 0 <= j < |t| ==> t[j].name in e.rank && e.rank[t[j].name] < n
  }

  lemma {:induction false} AddedBelow(e: Env, t: seq<Event>, n: nat, x: string)
    requires Below(e, t, n) && x in Added(t)
    ensures x in e.rank && e.rank[x] < n
  {
    var i := AddedWitness(t, x);
  }

  /** Every linked dependency is in the cache when it is linked. */
  ghost predicate LinksCached(c: set<string>, t: seq<Event>)
  {
    forall j :: 0 <= j < |t| && t[j].Link? ==> t[j].name in c + Added(t[..j])
  }

  /** No package is compiled while it is in the cache. */
  ghost predicate CompilesUncached(c: set<string>, t: seq<Event>)
  {
    forall j :: 0 <= j < |t| && t[j].Compile? ==> t[j].name !in c + Added(t[..j])
  }

  /** A package is added only right after it compiled successfully. */
  ghost predicate AddsFollowCompile(f: string -> bool, t: seq<Event>)
  {
    forall j :: 0 <= j < |t| && t[j].Add? ==> 0 < j && t[j - 1] == Compile(t[j].name) && f(t[j].name)
  }

  /** A successful compile is followed by adding the package. */
  ghost predicate SuccessAdded(f: string -> bool, t: seq<Event>)
  {
    forall j :: 0 <= j < |t| && t[j].Compile? && f(t[j].name) ==> j + 1 < |t| && t[j + 1] == Add(t[j].name)
  }

  /** A failed compile ends the run. */
  ghost predicate FailureEnds(f: string -> bool, t: seq<Event>)
  {
    forall j :: 0 <= j < |t| && t[j].Compile? && !f(t[j].name) ==> j == |t| - 1
  }

  ghost predicate NoFailedCompile(f: string -> bool, t: seq<Event>)
  {
    forall j :: 0 <= j < |t| && t[j].Compile? ==> f(t[j].name)
  }

  ghost predicate WellOrdered(f: string -> bool, c: set<string>, t: seq<Event>)
  {
    LinksCached(c, t) && CompilesUncached(c, t) && AddsFollowCompile(f, t) && SuccessAdded(f, t) && FailureEnds(f, t)
  }

  /** The run ends with the failed compile of `x`. */
  ghost predicate FailedLast(f: string -> bool, t: seq<Event>, x: string)
  {
    |t| > 0 && t[|t| - 1] == Compile(x) && !f(x)
  }

  lemma PrefixAdded(c: set<string>, a: seq<Event>, b: seq<Event>, j: nat)
    requires |a| <= j <= |a| + |b|
    ensures (a + b)[..j] == a + b[..j - |a|]
    ensures c + Added((a + b)[..j]) == (c + Added(a)) + Added(b[..j - |a|])
  {
    assert (a + b)[..j] == a + b[..j - |a|];
    AddedAppend(a, b[..j - |a|]);
  }

  lemma WellOrderedAppend(f: string -> bool, c: set<string>, a: seq<Event>, b: seq<Event>)
    requires WellOrdered(f, c, a) && NoFailedCompile(f, a)
    requires WellOrdered(f, c + Added(a), b)
    ensures WellOrdered(f, c, a + b)
  {
    var t := a + b;
    forall j | 0 <= j < |t| && t[j].Link?
      ensures t[j].name in c + Added(t[..j])
    {
      if j < |a| {
        assert t[j] == a[j] && t[..j] == a[..j];
      } else {
        PrefixAdded(c, a, b, j);
        assert t[j] == b[j - |a|];
      }
    }
    forall j | 0 <= j < |t| && t[j].Compile?
      ensures t[j].name !in c + Added(t[..j])
    {
      if j < |a| {
        assert t[j] == a[j] && t[..j] == a[..j];
      } else {
        PrefixAdded(c, a, b, j);
        assert t[j] == b[j - |a|];
      }
    }
    forall j | 0 <= j < |t| && t[j].Add?
      ensures 0 < j && t[j - 1] == Compile(t[j].name) && f(t[j].name)
    {
      if j < |a| {
        assert t[j] == a[j] && t[j - 1] == a[j - 1];
      } else {
        assert t[j] == b[j - |a|];
        assert j - |a| > 0;
        assert t[j - 1] == b[j - |a| - 1];
      }
    }
    forall j | 0 <= j < |t| && t[j].Compile? && f(t[j].name)
      ensures j + 1 < |t| && t[j + 1] == Add(t[j].name)
    {
      if j < |a| {
        assert t[j] == a[j] && t[j + 1] == a[j + 1];
      } else {
        assert t[j] == b[j - |a|] && t[j + 1] == b[j + 1 - |a|];
      }
    }
    forall j | 0 <= j < |t| && t[j].Compile? && !f(t[j].name)
      ensures j == |t| - 1
    {
      if j >= |a| {
        assert t[j] == b[j - |a|];
      }
    }
  }

  lemma NoFailedCompileAppend(f: string -> bool, a: seq<Event>, b: seq<Event>)
    requires NoFailedCompile(f, a) && NoFailedCompile(f, b)
    ensures NoFailedCompile(f, a + b)
  {
    forall j | 0 <= j < |a + b| && (a + b)[j].Compile?
      ensures f((a + b)[j].name)
    {
      if j < |a| { assert (a + b)[j] == a[j]; } else { assert (a + b)[j] == b[j - |a|]; }
    }
  }

  lemma BelowAppend(e: Env, a: seq<Event>, b: seq<Event>, n: nat)
    requires Below(e, a, n) && Below(e, b, n)
    ensures Below(e, a + b, n)
  {
    forall j | 0 <= j < |a + b|
      ensures (a + b)[j].name in e.rank && e.rank[(a + b)[j].name] < n
    {
      if j < |a| { assert (a + b)[j] == a[j]; } else { assert (a + b)[j] == b[j - |a|]; }
    }
  }

  /** The trace of a compile, and of the add that follows a successful one. */
  function CompileTail(f: string -> bool, p: string): seq<Event>
  {
    [Compile(p)] + if f(p) then [Add(p)] else []
  }

  lemma TailFacts(e: Env, c: set<string>, p: string)
    requires p !in c && p in e.rank
    ensures var tail := CompileTail(e.compiles, p);
      && Added(tail) == (if e.compiles(p) then {p} else {})
      && WellOrdered(e.compiles, c, tail)
      && (e.compiles(p) ==> NoFailedCompile(e.compiles, tail))
      && Below(e, tail, e.rank[p] + 1)
  {
    var tail := CompileTail(e.compiles, p);
    assert tail[..0] == [];
    assert Added([Compile(p)]) == {} by {
      assert [Compile(p)][..0] == [];
    }
    if e.compiles(p) {
      assert tail[..1] == [Compile(p)];
    }
  }

  lemma LinkFacts(e: Env, c: set<string>, d: string, dir: string, n: nat)
    requires d in c && d in e.rank && e.rank[d] < n
    ensures var link := [Link(d, dir)];
      && Added(link) == {}
      && WellOrdered(e.compiles, c, link)
      && NoFailedCompile(e.compiles, link)
      && Below(e, link, n)
  {
    var link := [Link(d, dir)];
    assert link[..0] == [];
  }

  /** The bookkeeping every specified run keeps: the cache grows by exactly what
      the run adds, every event is about a package below rank `n`, and a raise
      ends with the failed compile of the dependency it names. */
  ghost predicate Tracked(e: Env, c: set<string>, r: Run, n: nat)
  {
    && r.cached == c + Added(r.events)
    && Below(e, r.events, n)
    && (r.status.Raised? ==> FailedLast(e.compiles, r.events, r.status.failedDep))
  }

  lemma {:induction false} BuildTracked(e: Env, p: string, c: set<string>)
    requires e.Valid() && p in e.graph
    ensures Tracked(e, c, Build(e, p, c), e.rank[p] + 1)
    ensures Build(e, p, c).status.Returned? ==> (Build(e, p, c).status.value <==> p in Build(e, p, c).cached)
    ensures Build(e, p, c).status == Returned(false) ==> FailedLast(e.compiles, Build(e, p, c).events, p)
    decreases e.rank[p], 1, 0
  {
    if p !in c {
      var l := DepsLoop(e, p, |e.graph[p].deps|, c);
      DepsTracked(e, p, |e.graph[p].deps|, c);
      if !l.status.Raised? {
        var tail := CompileTail(e.compiles, p);
        assert Build(e, p, c).events == l.events + tail;
        if p in Added(l.events) {
          AddedBelow(e, l.events, e.rank[p], p);
        }
        TailFacts(e, c + Added(l.events), p);
        AddedAppend(l.events, tail);
        BelowAppend(e, l.events, tail, e.rank[p] + 1);
      }
    }
  }

  lemma {:induction false} DepsTracked(e: Env, p: string, k: nat, c: set<string>)
    requires e.Valid() && p in e.graph && k <= |e.graph[p].deps|
    ensures Tracked(e, c, DepsLoop(e, p, k, c), e.rank[p])
    ensures DepsLoop(e, p, k, c).status == Returned(true) || DepsLoop(e, p, k, c).status.Raised?
    decreases e.rank[p], 0, k
  {
    if k > 0 {
      var prev := DepsLoop(e, p, k - 1, c);
      DepsTracked(e, p, k - 1, c);
      if !prev.status.Raised? {
        var d := e.graph[p].deps[k - 1];
        SubTracked(e, d, prev.cached);
        StepTracked(e, c, prev, Sub(e, d, prev.cached), d, e.graph[p].buildDir, e.rank[p]);
      } else {
        assert DepsLoop(e, p, k, c) == prev;
      }
    }
  }

  lemma {:induction false} SubTracked(e: Env, d: string, c: set<string>)
    requires e.Valid() && d in e.graph
    ensures Tracked(e, c, Sub(e, d, c), e.rank[d] + 1)
    ensures Sub(e, d, c).status.Returned? ==> (Sub(e, d, c).status.value <==> d in Sub(e, d, c).cached)
    ensures Sub(e, d, c).status == Returned(false) ==> FailedLast(e.compiles, Sub(e, d, c).events, d)
    decreases e.rank[d], 2, 0
  {
    if d !in c {
      BuildTracked(e, d, c);
    } else {
      assert Added([]) == {};
    }
  }

  /** The bookkeeping survives one iteration of the loop. */
  lemma StepTracked(e: Env, c: set<string>, prev: Run, sub: Run, d: string, dir: string, n: nat)
    requires Tracked(e, c, prev, n) && prev.status == Returned(true)
    requires d in e.rank && e.rank[d] < n && Tracked(e, prev.cached, sub, e.rank[d] + 1)
    requires sub.status.Returned? ==> (sub.status.value <==> d in sub.cached)
    requires sub.status == Returned(false) ==> FailedLast(e.compiles, sub.events, d)
    ensures Tracked(e, c, Step(prev, sub, d, dir), n)
    ensures Step(prev, sub, d, dir).status == Returned(true) || Step(prev, sub, d, dir).status.Raised?
  {
    var ps := prev.events + sub.events;
    AddedAppend(prev.events, sub.events);
    assert sub.cached == c + Added(ps);
    BelowAppend(e, prev.events, sub.events, n);
    if sub.status.Raised? || sub.status == Returned(false) {
      assert ps[|ps| - 1] == sub.events[|sub.events| - 1];
    } else {
      var link := [Link(d, dir)];
      LinkFacts(e, c + Added(ps), d, dir, n);
      AddedAppend(ps, link);
      BelowAppend(e, ps, link, n);
    }
  }

  lemma {:induction false} BuildOrdered(e: Env, p: string, c: set<string>)
    requires e.Valid() && p in e.graph
    ensures WellOrdered(e.compiles, c, Build(e, p, c).events)
    ensures Build(e, p, c).status == Returned(true) ==> NoFailedCompile(e.compiles, Build(e, p, c).events)
    decreases e.rank[p], 1, 0
  {
    if p !in c {
      var l := DepsLoop(e, p, |e.graph[p].deps|, c);
      DepsOrdered(e, p, |e.graph[p].deps|, c);
      DepsTracked(e, p, |e.graph[p].deps|, c);
      if !l.status.Raised? {
        var tail := CompileTail(e.compiles, p);
        assert Build(e, p, c).events == l.events + tail;
        if p in Added(l.events) {
          AddedBelow(e, l.events, e.rank[p], p);
        }
        TailFacts(e, c + Added(l.events), p);
        WellOrderedAppend(e.compiles, c, l.events, tail);
        if e.compiles(p) {
          NoFailedCompileAppend(e.compiles, l.events, tail);
        }
      }
    }
  }

  lemma {:induction false} DepsOrdered(e: Env, p: string, k: nat, c: set<string>)
    requires e.Valid() && p in e.graph && k <= |e.graph[p].deps|
    ensures WellOrdered(e.compiles, c, DepsLoop(e, p, k, c).events)
    ensures DepsLoop(e, p, k, c).status == Returned(true) ==> NoFailedCompile(e.compiles, DepsLoop(e, p, k, c).events)
    decreases e.rank[p], 0, k
  {
    if k > 0 {
      var prev := DepsLoop(e, p, k - 1, c);
      DepsOrdered(e, p, k - 1, c);
      DepsTracked(e, p, k - 1, c);
      if !prev.status.Raised? {
        var d := e.graph[p].deps[k - 1];
        SubOrdered(e, d, prev.cached);
        SubTracked(e, d, prev.cached);
        StepOrdered(e.compiles, c, prev, Sub(e, d, prev.cached), d, e.graph[p].buildDir);
      } else {
        assert DepsLoop(e, p, k, c) == prev;
      }
    }
  }

  lemma {:induction false} SubOrdered(e: Env, d: string, c: set<string>)
    requires e.Valid() && d in e.graph
    ensures WellOrdered(e.compiles, c, Sub(e, d, c).events)
    ensures Sub(e, d, c).status == Returned(true) ==> NoFailedCompile(e.compiles, Sub(e, d, c).events)
    decreases e.rank[d], 2, 0
  {
    if d !in c {
      BuildOrdered(e, d, c);
    }
  }

  /** Well-ordering survives one iteration of the loop. */
  lemma StepOrdered(f: string -> bool, c: set<string>, prev: Run, sub: Run, d: string, dir: string)
    requires WellOrdered(f, c, prev.events) && NoFailedCompile(f, prev.events)
    requires prev.cached == c + Added(prev.events)
    requires WellOrdered(f, prev.cached, sub.events)
    requires sub.status == Returned(true) ==>
               NoFailedCompile(f, sub.events) && d in sub.cached && sub.cached == prev.cached + Added(sub.events)
    ensures WellOrdered(f, c, Step(prev, sub, d, dir).events)
    ensures Step(prev, sub, d, dir).status == Returned(true) ==> NoFailedCompile(f, Step(prev, sub, d, dir).events)
  {
    WellOrderedAppend(f, c, prev.events, sub.events);
    if sub.status == Returned(true) {
      var ps := prev.events + sub.events;
      var link := [Link(d, dir)];
      NoFailedCompileAppend(f, prev.events, sub.events);
      AddedAppend(prev.events, sub.events);
      assert link[..0] == [];
      assert WellOrdered(f, c + Added(ps), link);
      WellOrderedAppend(f, c, ps, link);
      NoFailedCompileAppend(f, ps, link);
    }
  }

  /** What every specified run satisfies: its adds are exactly the growth of the
      cache, its calls are well ordered, and a raise ends with a failed compile. */
  ghost predicate Sound(e: Env, c: set<string>, r: Run, n: nat)
  {
    && Tracked(e, c, r, n)
    && WellOrdered(e.compiles, c, r.events)
    && (r.status == Returned(true) ==> NoFailedCompile(e.compiles, r.events))
  }

  lemma BuildFacts(e: Env, p: string, c: set<string>)
    requires e.Valid() && p in e.graph
    ensures Sound(e, c, Build(e, p, c), e.rank[p] + 1)
    ensures Build(e, p, c).status.Returned? ==> (Build(e, p, c).status.value <==> p in Build(e, p, c).cached)
    ensures Build(e, p, c).status == Returned(false) ==> FailedLast(e.compiles, Build(e, p, c).events, p)
  {
    BuildTracked(e, p, c);
    BuildOrdered(e, p, c);
  }

  lemma DepsFacts(e: Env, p: string, k: nat, c: set<string>)
    requires e.Valid() && p in e.graph && k <= |e.graph[p].deps|
    ensures Sound(e, c, DepsLoop(e, p, k, c), e.rank[p])
    ensures DepsLoop(e, p, k, c).status == Returned(true) || DepsLoop(e, p, k, c).status.Raised?
  {
    DepsTracked(e, p, k, c);
    DepsOrdered(e, p, k, c);
  }

  // ---------------------------------------------------------------------------
  // What build_tree promises.

  /** A package that is already cached is not built: `build_tree` returns true
      and makes no call. */
  lemma BuildMemoised(e: Env, p: string, c: set<string>)
    requires e.Valid() && p in e.graph && p in c
    ensures Build(e, p, c) == Run(Returned(true), c, [])
  {
  }

  /** `build_tree` returns true exactly when the package ends up in the cache;
      the cache only grows, and it grows by exactly the packages the run adds,
      each added right after it compiled successfully. */
  lemma BuildResultMeansCached(e: Env, p: string, c: set<string>)
    requires e.Valid() && p in e.graph
    ensures var r := Build(e, p, c);
      && c <= r.cached
      && r.cached == c + Added(r.events)
      && (r.status.Returned? ==> (r.status.value <==> p in r.cached))
      && AddsFollowCompile(e.compiles, r.events)
  {
    BuildFacts(e, p, c);
  }

  /** Within one top-level build no package is compiled twice, and no package
      that was cached when the build started is compiled at all. */
  lemma CompiledAtMostOnce(e: Env, p: string, c: set<string>)
    requires e.Valid() && p in e.graph
    ensures var t := Build(e, p, c).events;
      && (forall j :: 0 <= j < |t| && t[j].Compile? ==> t[j].name !in c)
      && (forall i, j :: 0 <= i < j < |t| && t[i].Compile? && t[j].Compile? ==> t[i].name != t[j].name)
  {
    BuildFacts(e, p, c);
    var t := Build(e, p, c).events;
    var f := e.compiles;
    forall i, j | 0 <= i < j < |t| && t[i].Compile? && t[j].Compile?
      ensures t[i].name != t[j].name
    {
      if t[i].name == t[j].name {
        if f(t[i].name) {
          assert t[i + 1] == Add(t[i].name);
          AddedAt(t, i + 1, j);
          assert false;
        } else {
          assert false;
        }
      }
    }
  }

  /** Every link happens after the dependency is in the cache: either it was
      cached before the build or it was compiled and added earlier in the same
      build. */
  lemma LinkedAfterBuilt(e: Env, p: string, c: set<string>)
    requires e.Valid() && p in e.graph
    ensures var t := Build(e, p, c).events;
      forall j :: 0 <= j < |t| && t[j].Link? ==>
        t[j].name in c || exists i :: 0 < i < j && t[i] == Add(t[j].name) && t[i - 1] == Compile(t[j].name)
  {
    BuildFacts(e, p, c);
    var t := Build(e, p, c).events;
    forall j | 0 <= j < |t| && t[j].Link? && t[j].name !in c
      ensures exists i :: 0 < i < j && t[i] == Add(t[j].name) && t[i - 1] == Compile(t[j].name)
    {
      var i := AddedWitness(t[..j], t[j].name);
      assert t[i] == t[..j][i];
      assert t[i].Add?;
      assert 0 < i && t[i - 1] == Compile(t[j].name);
    }
  }

  /** The positions, in the trace of the loop over the first `k` dependencies of
      `p`, of the links into `p`'s own build directory. */
  ghost function LinkPositions(e: Env, p: string, k: nat, c: set<string>): seq<nat>
    requires e.Valid() && p in e.graph && k <= |e.graph[p].deps|
  {
    if k == 0 then []
    else if DepsLoop(e, p, k, c).status.Raised? then LinkPositions(e, p, k - 1, c)
    else LinkPositions(e, p, k - 1, c) + [|DepsLoop(e, p, k, c).events| - 1]
  }

  /** When the loop completes, each of the first `k` dependencies has been linked
      into `p`'s build directory, in declaration order. */
  lemma {:induction false} LinkedInOrder(e: Env, p: string, k: nat, c: set<string>)
    requires e.Valid() && p in e.graph && k <= |e.graph[p].deps|
    requires DepsLoop(e, p, k, c).status == Returned(true)
    ensures var pos, t := LinkPositions(e, p, k, c), DepsLoop(e, p, k, c).events;
      && |pos| == k
      && (forall i :: 0 <= i < k ==> pos[i] < |t| && t[pos[i]] == Link(e.graph[p].deps[i], e.graph[p].buildDir))
      && (forall i, j :: 0 <= i < j < k ==> pos[i] < pos[j])
  {
    if k > 0 {
      var prev := DepsLoop(e, p, k - 1, c);
      LinkedInOrder(e, p, k - 1, c);
      var t := DepsLoop(e, p, k, c).events;
      var d := e.graph[p].deps[k - 1];
      var sub := if d in prev.cached then Run(Returned(true), prev.cached, []) else Build(e, d, prev.cached);
      assert t == prev.events + sub.events + [Link(d, e.graph[p].buildDir)];
      var pp := LinkPositions(e, p, k - 1, c);
      assert LinkPositions(e, p, k, c) == pp + [|t| - 1];
      forall i | 0 <= i < k - 1
        ensures pp[i] < |prev.events| && t[pp[i]] == prev.events[pp[i]]
      {
      }
    }
  }

  /** A package that is not cached: when its loop raises, it is neither compiled
      nor added; otherwise the result is the compiler's verdict,
      every dependency has been linked, in order, before the one compile of the
      package, and the package is added exactly when it compiled. */
  lemma BuildUncached(e: Env, p: string, c: set<string>)
    requires e.Valid() && p in e.graph && p !in c
    ensures var r, l := Build(e, p, c), DepsLoop(e, p, |e.graph[p].deps|, c);
      && (r.status.Raised? ==> Compile(p) !in r.events && Add(p) !in r.events && p !in r.cached)
      && (r.status.Returned? ==>
            && r.status.value == e.compiles(p)
            && r.events == l.events + CompileTail(e.compiles, p)
            && Compile(p) !in l.events
            && |LinkPositions(e, p, |e.graph[p].deps|, c)| == |e.graph[p].deps|
            && (forall i :: 0 <= i < |e.graph[p].deps| ==>
                  LinkPositions(e, p, |e.graph[p].deps|, c)[i] < |l.events|
                  && r.events[LinkPositions(e, p, |e.graph[p].deps|, c)[i]] == Link(e.graph[p].deps[i], e.graph[p].buildDir)))
  {
    var deps := e.graph[p].deps;
    var l := DepsLoop(e, p, |deps|, c);
    var r := Build(e, p, c);
    DepsFacts(e, p, |deps|, c);
    assert forall j :: 0 <= j < |l.events| ==> l.events[j].name != p;
    if r.status.Raised? {
      if p in r.cached {
        AddedBelow(e, l.events, e.rank[p], p);
      }
    } else {
      LinkedInOrder(e, p, |deps|, c);
      var pos := LinkPositions(e, p, |deps|, c);
      forall i | 0 <= i < |deps|
        ensures pos[i] < |l.events| && r.events[pos[i]] == Link(deps[i], e.graph[p].buildDir)
      {
        assert r.events[pos[i]] == l.events[pos[i]];
      }
    }
  }

  // ---------------------------------------------------------------------------
  // Specification of populate and its recursive helper.

  /** Every name in `deps` is a package whose rank is below `n`. */
  ghost predicate Bounded(e: Env, deps: seq<string>, n: nat)
  {
    forall i :: 0 <= i < |deps| ==> deps[i] in e.graph && deps[i] in e.rank && e.rank[deps[i]] < n
  }

  /** The call `__populate_deps` makes for one dependency. */
  function Visit(d: string, c: set<string>): Event
  {
    if d in c then Get(d) else Fetch(d)
  }

  /** The calls of `__populate_deps(deps)`: for each dependency in order, get or
      fetch it, then recurse into its own dependencies. */
  ghost function Populated(e: Env, deps: seq<string>, n: nat, c: set<string>): seq<Event>
    requires e.Valid() && Bounded(e, deps, n)
    decreases n, |deps|
  {
    if deps == [] then []
    else
      var d := deps[|deps| - 1];
      Populated(e, deps[..|deps| - 1], n, c) + [Visit(d, c)] + Populated(e, e.graph[d].deps, e.rank[d], c)
  }

  /** Reference: the dependency occurrences of `deps` in pre-order, every
      occurrence kept. */
  ghost function Preorder(e: Env, deps: seq<string>, n: nat): seq<string>
    requires e.Valid() && Bounded(e, deps, n)
    decreases n, |deps|
  {
    if deps == [] then []
    else
      var d := deps[|deps| - 1];
      Preorder(e, deps[..|deps| - 1], n) + [d] + Preorder(e, e.graph[d].deps, e.rank[d])
  }

  /** One more dependency: the prefix stays bounded and its calls extend by
      the visit and the recursion for that dependency. */
  lemma PopulatedStep(e: Env, deps: seq<string>, n: nat, c: set<string>, i: nat)
    requires e.Valid() && Bounded(e, deps, n) && i < |deps|
    ensures Bounded(e, deps[..i], n) && Bounded(e, deps[..i + 1], n)
    ensures Populated(e, deps[..i + 1], n, c)
         == Populated(e, deps[..i], n, c) + [Visit(deps[i], c)] + Populated(e, e.graph[deps[i]].deps, e.rank[deps[i]], c)
  {
    assert deps[..i + 1][..i] == deps[..i];
  }

  ghost predicate VisitsOf(t: seq<Event>, names: seq<string>, c: set<string>)
  {
    |t| == |names| && forall i :: 0 <= i < |names| ==> t[i] == Visit(names[i], c)
  }

  lemma VisitsAppend(t1: seq<Event>, n1: seq<string>, t2: seq<Event>, n2: seq<string>, c: set<string>)
    requires VisitsOf(t1, n1, c) && VisitsOf(t2, n2, c)
    ensures VisitsOf(t1 + t2, n1 + n2, c)
  {
    forall i | 0 <= i < |n1 + n2|
      ensures (t1 + t2)[i] == Visit((n1 + n2)[i], c)
    {
      if i < |n1| { assert (t1 + t2)[i] == t1[i]; } else { assert (t1 + t2)[i] == t2[i - |n1|]; }
    }
  }

  /** `__populate_deps` visits every dependency occurrence in pre-order and
      declaration order, without deduplication, calling `get_package` exactly for
      the cached ones and `fetch_package` for the others, the cache's content
      being the one it had before population (it holds under the assumption that
      getting and fetching leave that content unchanged). */
  lemma {:induction false} PopulateVisitsPreorder(e: Env, deps: seq<string>, n: nat, c: set<string>)
    requires e.Valid() && Bounded(e, deps, n)
    ensures VisitsOf(Populated(e, deps, n, c), Preorder(e, deps, n), c)
    decreases n, |deps|
  {
    if deps != [] {
      var d := deps[|deps| - 1];
      var init := deps[..|deps| - 1];
      PopulateVisitsPreorder(e, init, n, c);
      PopulateVisitsPreorder(e, e.graph[d].deps, e.rank[d], c);
      VisitsAppend(Populated(e, init, n, c), Preorder(e, init, n), [Visit(d, c)], [d], c);
      VisitsAppend(Populated(e, init, n, c) + [Visit(d, c)], Preorder(e, init, n) + [d],
                   Populated(e, e.graph[d].deps, e.rank[d], c), Preorder(e, e.graph[d].deps, e.rank[d]), c);
    }
  }

  /** A dependency shared by two packages is visited once per occurrence: with
      A depending on B and C, which both depend on D, and an empty cache that
      fetching does not fill, D is fetched twice. */
  lemma SharedDependencyVisitedTwice()
    ensures var g := map["A" := PackageInfo(["B", "C"], "a"), "B" := PackageInfo(["D"], "b"),
                         "C" := PackageInfo(["D"], "c"), "D" := PackageInfo([], "d")];
            var e := Env(g, map["A" := 2, "B" := 1, "C" := 1, "D" := 0], s => true);
            e.Valid() && Bounded(e, ["B", "C"], 2)
            && Populated(e, ["B", "C"], 2, {}) == [Fetch("B"), Fetch("D"), Fetch("C"), Fetch("D")]
  {
    var g := map["A" := PackageInfo(["B", "C"], "a"), "B" := PackageInfo(["D"], "b"),
                 "C" := PackageInfo(["D"], "c"), "D" := PackageInfo([], "d")];
    var e := Env(g, map["A" := 2, "B" := 1, "C" := 1, "D" := 0], s => true);
    assert e.Valid();
    assert ["B", "C"][..1] == ["B"];
    assert ["B"][..0] == [];
    assert ["D"][..0] == [];
    assert Populated(e, ["D"], 1, {}) == [Fetch("D")];
  }

  // ---------------------------------------------------------------------------
  // The builder.

  class Builder {
    const path: string
    const cache: CacheBase.Cache
    const graph: Graph
    ghost const rank: map<string, nat>
    const compiles: string -> bool
    /** The package `Package.frompath(path)` loads. */
    const root: string
    var trace: seq<Event>

    ghost function Environment(): Env
    {
      Env(graph, rank, compiles)
    }

    ghost predicate Valid()
    {
      Environment().Valid() && root in graph
    }

    /** `Builder.__init__(path)`, with the collaborators that the global
        properties would supply given explicitly. */
    constructor (path: string, cache: CacheBase.Cache, graph: Graph, ghost rank: map<string, nat>,
                 compiles: string -> bool, root: string)
      requires Env(graph, rank, compiles).Valid() && root in graph
      ensures Valid() && trace == []
      ensures this.path == path && this.cache == cache && this.graph == graph && this.rank == rank
      ensures this.compiles == compiles && this.root == root
    {
      this.path := path;
      this.cache := cache;
      this.graph := graph;
      this.rank := rank;
      this.compiles := compiles;
      this.root := root;
      trace := [];
    }

    /** `build_tree(package)`. */
    method BuildTree(p: string) returns (status: Status)
      requires Valid() && p in graph
      modifies this, cache
      decreases rank[p]
      ensures var r := Build(Environment(), p, old(cache.cached));
        status == r.status && cache.cached == r.cached && trace == old(trace) + r.events
    {
      ghost var c0, t0 := cache.cached, trace;
      ghost var e := Environment();
      if cache.Exists(p) {
        return Returned(true);
      }
      var deps := graph[p].deps;
      var dir := graph[p].buildDir;
      var i := 0;
      while i < |deps|
        invariant 0 <= i <= |deps|
        invariant DepsLoop(e, p, i, c0).status == Returned(true)
        invariant cache.cached == DepsLoop(e, p, i, c0).cached
        invariant trace == t0 + DepsLoop(e, p, i, c0).events
      {
        var d := deps[i];
        ghost var prev := DepsLoop(e, p, i, c0);
        ghost var sub := Run(Returned(true), prev.cached, []);
        if !cache.Exists(d) {
          var built := BuildTree(d);
          sub := Build(e, d, prev.cached);
          Wrappers.ConcatAssoc(t0, prev.events, sub.events, [Link(d, dir)]);
          if built != Returned(true) {
            LoopRaises(e, p, i, c0);
            return if built == Returned(false) then Raised(d) else built;
          }
        } else {
          Wrappers.ConcatAssoc(t0, prev.events, [], [Link(d, dir)]);
          assert trace == t0 + prev.events + [];
        }
        LoopLinks(e, p, i, c0, sub);
        cache.LinkPackage(d, dir);
        trace := trace + [Link(d, dir)];
        i := i + 1;
      }
      BuildCompiles(e, p, c0);
      ghost var l := DepsLoop(e, p, |deps|, c0);
      var ok := compiles(p);
      Wrappers.ConcatAssoc(t0, l.events, [Compile(p)], if ok then [Add(p)] else []);
      trace := trace + [Compile(p)];
      if ok {
        cache.AddPackage(p, true);
        trace := trace + [Add(p)];
      } else {
        assert trace == t0 + l.events + [Compile(p)] + [];
      }
      status := Returned(ok);
    }

    /** `__populate_deps(deps)`; `bound` is a rank above every dependency's. */
    method PopulateDeps(deps: seq<string>, ghost bound: nat)
      requires Valid() && Bounded(Environment(), deps, bound)
      modifies this`trace
      decreases bound
      ensures trace == old(trace) + Populated(Environment(), deps, bound, cache.cached)
    {
      ghost var e, c := Environment(), cache.cached;
      var i := 0;
      while i < |deps|
        invariant 0 <= i <= |deps|
        invariant cache.cached == c
        invariant Bounded(e, deps[..i], bound)
        invariant trace == old(trace) + Populated(e, deps[..i], bound, c)
      {
        var d := deps[i];
        PopulatedStep(e, deps, bound, c, i);
        ghost var t := trace;
        if cache.Exists(d) {
          cache.GetPackage(d);
          trace := trace + [Get(d)];
        } else {
          cache.FetchPackage(d);
          trace := trace + [Fetch(d)];
        }
        PopulateDeps(graph[d].deps, rank[d]);
        Wrappers.ConcatAssoc(old(trace), Populated(e, deps[..i], bound, c), [Visit(d, c)], Populated(e, graph[d].deps, rank[d], c));
        i := i + 1;
      }
      assert deps[..i] == deps;
    }

    /** `populate()`: load the top-level package and populate its dependencies. */
    method Populate() returns (first: string)
      requires Valid()
      modifies this
      ensures first == root
      ensures trace == old(trace) + Populated(Environment(), graph[root].deps, rank[root], cache.cached)
    {
      first := root;
      PopulateDeps(graph[first].deps, rank[first]);
    }
  }
}
