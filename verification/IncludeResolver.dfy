/** Resolution of a dialect's `<include>` graph: a depth-first search that orders files dependency
    first and refuses cycles.

    A file system is a finite map from absolute paths to what reading the file yields.  Each include
    carries the outcome of searching for it: the existing file it resolved to, or nothing. */
module IncludeResolver {
  import opened Wrappers

  type File = string

  datatype Document = Readable(includes: seq<Option<File>>) | Unreadable

  /** Searching an include only ever yields files that exist. */
  ghost predicate SearchFindsFiles(disk: map<File, Document>) {
    forall f, t :: Edge(disk, f, t) ==> t in disk
  }

  type Disk = m: map<File, Document> | SearchFindsFiles(m) witness map[]

  datatype Error =
    | XmlNotFound
    | IncludeNotFound(from: File)
    | IncludeCycle(cycle: seq<File>)

  datatype Outcome =
    | Resolved(orderedFiles: seq<File>, includeGraph: map<File, seq<File>>)
    | Failed(error: Error)

  // The include graph

  ghost predicate Edge(disk: map<File, Document>, f: File, t: File) {
    f in disk && disk[f].Readable? && Some(t) in disk[f].includes
  }

  ghost predicate Chain(disk: map<File, Document>, p: seq<File>) {
    p != [] && forall i :: 0 <= i < |p| - 1 ==> Edge(disk, p[i], p[i + 1])
  }

  ghost predicate Reachable(disk: map<File, Document>, root: File, f: File) {
    exists p :: Chain(disk, p) && p[0] == root && p[|p| - 1] == f
  }

  /** The file can be read and every include in it was found. */
  predicate Complete(disk: map<File, Document>, f: File) {
    f in disk && disk[f].Readable? && None !in disk[f].includes
  }

  ghost predicate ClosesCycle(p: seq<File>) {
    exists i :: 0 <= i < |p| - 1 && p[i] == p[|p| - 1]
  }

  ghost predicate CycleReachable(disk: map<File, Document>, root: File) {
    exists p :: Chain(disk, p) && p[0] == root && ClosesCycle(p)
  }

  /** What a dialect must satisfy to be loaded. */
  ghost predicate Loadable(disk: Disk, root: File) {
    && root in disk
    && (forall f :: Reachable(disk, root, f) ==> Complete(disk, f))
    && !CycleReachable(disk, root)
  }

  function Targets(includes: seq<Option<File>>): (r: seq<File>)
    ensures forall t :: t in r <==> Some(t) in includes
  {
    if includes == [] then [] else (if includes[0].Some? then [includes[0].value] else []) + Targets(includes[1..])
  }

  lemma {:induction false} TargetsConcat(a: seq<Option<File>>, b: seq<Option<File>>)
    ensures Targets(a + b) == Targets(a) + Targets(b)
  {
    if a == [] {
      assert a + b == b;
    } else {
      assert (a + b)[1..] == a[1..] + b;
      TargetsConcat(a[1..], b);
    }
  }

  lemma TargetsNext(includes: seq<Option<File>>, k: nat)
    requires k < |includes|
    ensures Targets(includes[..k + 1]) == Targets(includes[..k]) + if includes[k].Some? then [includes[k].value] else []
  {
    assert includes[..k + 1] == includes[..k] + [includes[k]];
    TargetsConcat(includes[..k], [includes[k]]);
    assert [includes[k]][1..] == [];
  }

  ghost predicate NoDuplicates(s: seq<File>) {
    forall i, j :: 0 <= i < j < |s| ==> s[i] != s[j]
  }

  /** Every file comes after everything it includes. */
  ghost predicate DependencyFirst(disk: map<File, Document>, order: seq<File>) {
    forall i, t :: 0 <= i < |order| && Edge(disk, order[i], t) ==> t in order[..i]
  }

  // What an order of this kind says about the graph

  lemma ChainSuffix(disk: Disk, p: seq<File>, i: nat)
    requires Chain(disk, p) && i < |p|
    ensures Chain(disk, p[i..])
  {
    forall k | 0 <= k < |p[i..]| - 1 ensures Edge(disk, p[i..][k], p[i..][k + 1]) {
      assert Edge(disk, p[i + k], p[i + k + 1]);
    }
  }

  lemma ChainGrows(disk: map<File, Document>, p: seq<File>, t: File)
    requires Chain(disk, p) && Edge(disk, p[|p| - 1], t)
    ensures Chain(disk, p + [t])
  {
  }

  lemma {:induction false} ChainDescends(disk: Disk, order: seq<File>, p: seq<File>, at: nat)
    requires NoDuplicates(order) && DependencyFirst(disk, order)
    requires Chain(disk, p) && at < |order| && order[at] == p[0]
    ensures forall k :: 0 < k < |p| ==> p[k] in order[..at]
    decreases |p|
  {
    if |p| > 1 {
      assert Edge(disk, order[at], p[1]);
      var next :| 0 <= next < at && order[next] == p[1];
      ChainSuffix(disk, p, 1);
      ChainDescends(disk, order, p[1..], next);
      forall k | 0 < k < |p| ensures p[k] in order[..at] {
        if k > 1 {
          assert p[k] == p[1..][k - 1];
          assert p[k] in order[..next];
        }
      }
    }
  }

  /** A duplicate-free dependency-first order that holds the root reaches everything reachable and
      leaves no room for a cycle. */
  lemma OrderedMeansLoadable(disk: Disk, root: File, order: seq<File>)
    requires NoDuplicates(order) && DependencyFirst(disk, order) && root in order
    requires forall f :: f in order ==> Complete(disk, f)
    ensures Loadable(disk, root)
    ensures forall f :: Reachable(disk, root, f) ==> f in order
  {
    var at :| 0 <= at < |order| && order[at] == root;
    forall f | Reachable(disk, root, f) ensures f in order {
      var p :| Chain(disk, p) && p[0] == root && p[|p| - 1] == f;
      ChainDescends(disk, order, p, at);
    }
    if CycleReachable(disk, root) {
      var p :| Chain(disk, p) && p[0] == root && ClosesCycle(p);
      var i :| 0 <= i < |p| - 1 && p[i] == p[|p| - 1];
      ChainDescends(disk, order, p, at);
      assert p[i] in order;
      var k :| 0 <= k < |order| && order[k] == p[i];
      ChainSuffix(disk, p, i);
      ChainDescends(disk, order, p[i..], k);
      assert false;
    }
  }

  /** The error names a real defect of what the root includes. */
  ghost predicate Justified(disk: Disk, root: File, error: Error) {
    match error
    case XmlNotFound => root !in disk
    case IncludeNotFound(from) => Reachable(disk, root, from) && !Complete(disk, from)
    case IncludeCycle(cycle) => Chain(disk, cycle) && cycle[0] == root && ClosesCycle(cycle)
  }

  lemma JustifiedMeansNotLoadable(disk: Disk, root: File, error: Error)
    requires Justified(disk, root, error)
    ensures !Loadable(disk, root)
  {
  }

  /** The files are listed once each, dependencies first and the root last, and are exactly what the root
      reaches; the graph holds the targets of each. */
  ghost predicate Lists(disk: Disk, root: File, orderedFiles: seq<File>, includeGraph: map<File, seq<File>>) {
    && NoDuplicates(orderedFiles) && DependencyFirst(disk, orderedFiles)
    && (forall f {:trigger Reachable(disk, root, f)} :: f in orderedFiles <==> Reachable(disk, root, f))
    && orderedFiles != [] && orderedFiles[|orderedFiles| - 1] == root
    && includeGraph.Keys == (set f | f in orderedFiles)
    && (forall f :: f in orderedFiles ==> Complete(disk, f) && includeGraph[f] == Targets(disk[f].includes))
  }

  /** The state that the recursive `visit` updates. */
  class Search {
    const disk: Disk
    const root: File
    var visited: set<File>
    var stack: set<File>
    var stackOrder: seq<File>
    var orderedFiles: seq<File>
    var includeGraph: map<File, seq<File>>

    constructor (disk: Disk, root: File)
      ensures this.disk == disk && this.root == root
      ensures stackOrder == [] && orderedFiles == [] && Valid()
    {
      this.disk, this.root := disk, root;
      visited, stack, stackOrder, orderedFiles, includeGraph := {}, {}, [], [], map[];
    }

    ghost predicate Valid()
      reads this
    {
      && stack == (set f | f in stackOrder) && NoDuplicates(stackOrder)
      && (stackOrder != [] ==> Chain(disk, stackOrder) && stackOrder[0] == root)
      && visited == (set f | f in orderedFiles) && NoDuplicates(orderedFiles)
      && visited !! stack
      && DependencyFirst(disk, orderedFiles)
      && (forall f :: f in orderedFiles ==> Complete(disk, f))
      && (forall f {:trigger Reachable(disk, root, f)} :: f in orderedFiles ==> Reachable(disk, root, f))
      && includeGraph.Keys == visited
      && (forall f :: f in visited ==> includeGraph[f] == Targets(disk[f].includes))
    }

    /** `f` is the root, or the file on top of the stack includes it. */
    ghost predicate ComesNext(f: File)
      reads this
    {
      if stackOrder == [] then f == root else Edge(disk, stackOrder[|stackOrder| - 1], f)
    }

    lemma StackGrows(f: File)
      requires Valid() && ComesNext(f) && f in disk
      ensures Chain(disk, stackOrder + [f]) && (stackOrder + [f])[0] == root
      ensures Reachable(disk, root, f)
    {
      var p := stackOrder + [f];
      assert p[|p| - 1] == f;
    }

    lemma CycleFound(f: File)
      requires Valid() && ComesNext(f) && f in disk && f in stack
      ensures Justified(disk, root, IncludeCycle(stackOrder + [f]))
    {
      StackGrows(f);
      var i :| 0 <= i < |stackOrder| && stackOrder[i] == f;
      var cycle := stackOrder + [f];
      assert cycle[i] == cycle[|cycle| - 1];
    }

    lemma MissingFound(f: File)
      requires Valid() && ComesNext(f) && f in disk && !Complete(disk, f)
      ensures Justified(disk, root, IncludeNotFound(f))
    {
      StackGrows(f);
    }

    /** What has been reached once the root is listed. */
    lemma Finished()
      requires Valid() && orderedFiles != [] && orderedFiles[|orderedFiles| - 1] == root
      ensures Loadable(disk, root) && Lists(disk, root, orderedFiles, includeGraph)
    {
      OrderedMeansLoadable(disk, root, orderedFiles);
    }

    lemma FinishOrder(f: File)
      requires Valid() && Complete(disk, f)
      requires forall t :: Edge(disk, f, t) ==> t in visited
      ensures DependencyFirst(disk, orderedFiles + [f])
    {
      var order := orderedFiles + [f];
      forall i, t | 0 <= i < |order| && Edge(disk, order[i], t) ensures t in order[..i] {
        assert order[..i] == orderedFiles[..i];
      }
    }

    method Enter(f: File)
      requires Valid() && ComesNext(f) && f in disk && f !in visited && f !in stack
      modifies `stack, `stackOrder
      ensures Valid() && stackOrder == old(stackOrder) + [f] && stack == old(stack) + {f}
    {
      StackGrows(f);
      stack := stack + {f};
      stackOrder := stackOrder + [f];
    }

    /** All includes of the file on top of the stack are done: list it and take it off the stack. */
    method Leave(f: File, resolvedIncludes: seq<File>)
      requires Valid() && stackOrder != [] && stackOrder[|stackOrder| - 1] == f && Complete(disk, f)
      requires resolvedIncludes == Targets(disk[f].includes)
      requires forall t :: t in resolvedIncludes ==> t in visited
      modifies this
      ensures Valid() && stackOrder == old(stackOrder)[..|old(stackOrder)| - 1]
      ensures orderedFiles == old(orderedFiles) + [f] && visited == old(visited) + {f}
    {
      FinishOrder(f);
      TopIsReachable(f);
      Popped(stackOrder);
      assert f in stackOrder;
      Pushed(orderedFiles, f);
      includeGraph := includeGraph[f := resolvedIncludes];
      orderedFiles := orderedFiles + [f];
      visited := visited + {f};
      stack := stack - {f};
      stackOrder := stackOrder[..|stackOrder| - 1];
    }

    lemma Popped(order: seq<File>)
      requires NoDuplicates(order) && order != []
      ensures var rest := order[..|order| - 1];
        NoDuplicates(rest) && (set f | f in rest) == (set f | f in order) - {order[|order| - 1]}
    {
      assert order == order[..|order| - 1] + [order[|order| - 1]];
    }

    lemma Pushed(order: seq<File>, f: File)
      requires NoDuplicates(order) && f !in order
      ensures NoDuplicates(order + [f]) && (set x | x in order + [f]) == (set x | x in order) + {f}
    {
    }

    lemma TopIsReachable(f: File)
      requires Valid() && stackOrder != [] && stackOrder[|stackOrder| - 1] == f
      ensures Reachable(disk, root, f)
    {
      assert Chain(disk, stackOrder);
    }

    method Visit(f: File) returns (error: Option<Error>)
      requires Valid() && ComesNext(f) && f in disk
      modifies this
      ensures error.Some? ==> Justified(disk, root, error.value)
      ensures error.None? ==> Valid() && stackOrder == old(stackOrder) && f in visited
      ensures error.None? ==> old(visited) <= visited
      ensures error.None? && f !in old(visited) ==> orderedFiles[|orderedFiles| - 1] == f
      decreases disk.Keys - stack, 0
    {
      if f in visited {
        return None;
      }
      if f in stack {
        CycleFound(f);
        return Some(IncludeCycle(stackOrder + [f]));
      }
      if disk[f].Unreadable? {
        MissingFound(f);
        return Some(IncludeNotFound(f));
      }
      ghost var outer := stackOrder;
      Enter(f);
      assert stackOrder[..|stackOrder| - 1] == outer;
      var resolvedIncludes;
      error, resolvedIncludes := VisitIncludes(f);
      if error.None? {
        Leave(f, resolvedIncludes);
      }
    }

    /** Visits what the file on top of the stack includes. */
    method VisitIncludes(f: File) returns (error: Option<Error>, resolvedIncludes: seq<File>)
      requires Valid() && stackOrder != [] && stackOrder[|stackOrder| - 1] == f && f in disk && disk[f].Readable?
      modifies this
      ensures error.Some? ==> Justified(disk, root, error.value)
      ensures error.None? ==> Valid() && stackOrder == old(stackOrder) && old(visited) <= visited
      ensures error.None? ==> Complete(disk, f) && resolvedIncludes == Targets(disk[f].includes)
      ensures error.None? ==> forall t :: t in resolvedIncludes ==> t in visited
      decreases disk.Keys - stack, 1
    {
      var includes := disk[f].includes;
      resolvedIncludes := [];
      for k := 0 to |includes|
        invariant Valid() && stackOrder == old(stackOrder) && stack == old(stack)
        invariant old(visited) <= visited
        invariant None !in includes[..k] && resolvedIncludes == Targets(includes[..k])
        invariant forall t :: t in resolvedIncludes ==> t in visited
      {
        TargetsNext(includes, k);
        if includes[k].None? {
          assert Justified(disk, root, IncludeNotFound(f)) by {
            TopIsReachable(f);
          }
          return Some(IncludeNotFound(f)), [];
        }
        var target := includes[k].value;
        assert Edge(disk, f, target) by {
          assert includes[k] in includes;
        }
        resolvedIncludes := resolvedIncludes + [target];
        error := Visit(target);
        if error.Some? {
          return error, [];
        }
      }
      assert includes[..|includes|] == includes;
      error := None;
    }
  }

  /** Include resolution terminates on every finite graph, and succeeds exactly on loadable roots; otherwise
      the error names a real defect. */
  method ResolveXmlIncludeGraph(disk: Disk, root: File) returns (outcome: Outcome)
    ensures outcome.Resolved? <==> Loadable(disk, root)
    ensures outcome.Failed? ==> Justified(disk, root, outcome.error)
    ensures outcome.Resolved? ==> Lists(disk, root, outcome.orderedFiles, outcome.includeGraph)
  {
    if root !in disk {
      return Failed(XmlNotFound);
    }
    var search := new Search(disk, root);
    var error := search.Visit(root);
    if error.Some? {
      JustifiedMeansNotLoadable(disk, root, error.value);
      return Failed(error.value);
    }
    search.Finished();
    return Resolved(search.orderedFiles, search.includeGraph);
  }
}
