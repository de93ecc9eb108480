/** Downloading a dialect set with everything it includes, and deciding which roots the snapshot can serve.

    The upstream commit is a map from file names to the include names found in each file; `None` is a
    name that `normalizeFileName` refuses.  A name outside the map is a file that cannot be fetched. */
module XmlCatalog {
  import opened Wrappers
  import IR = IncludeResolver

  type File = string
  type Upstream = map<File, seq<Option<File>>>

  datatype Manifest = Manifest(
    files: map<File, seq<File>>, missing: set<File>, unusable: map<File, set<File>>, usable: set<File>)

  datatype UpdateResult = Published(manifest: Manifest) | BadFile | Empty

  // Reachability

  ghost predicate Edge(upstream: Upstream, f: File, t: File) {
    f in upstream && Some(t) in upstream[f]
  }

  ghost predicate Chain(upstream: Upstream, p: seq<File>) {
    p != [] && forall i :: 0 <= i < |p| - 1 ==> Edge(upstream, p[i], p[i + 1])
  }

  ghost predicate Reachable(upstream: Upstream, root: File, f: File) {
    exists p :: Chain(upstream, p) && p[0] == root && p[|p| - 1] == f
  }

  ghost predicate ReachableFromAny(upstream: Upstream, roots: seq<File>, f: File) {
    exists root :: root in roots && Reachable(upstream, root, f)
  }

  ghost predicate UnsafeNameReached(upstream: Upstream, roots: seq<File>) {
    exists f :: ReachableFromAny(upstream, roots, f) && f in upstream && None in upstream[f]
  }

  lemma ReachableSelf(upstream: Upstream, root: File)
    ensures Reachable(upstream, root, root)
  {
    assert Chain(upstream, [root]) && [root][|[root]| - 1] == root;
  }

  lemma ReachableNext(upstream: Upstream, root: File, f: File, t: File)
    requires Reachable(upstream, root, f) && Edge(upstream, f, t)
    ensures Reachable(upstream, root, t)
  {
    var p :| Chain(upstream, p) && p[0] == root && p[|p| - 1] == f;
    var q := p + [t];
    assert Chain(upstream, q) && q[0] == root && q[|q| - 1] == t;
  }

  /** A set that holds the start of a chain and is closed under includes holds the whole chain. */
  lemma {:induction false} ClosedHoldsChain(upstream: Upstream, closed: set<File>, p: seq<File>)
    requires Chain(upstream, p) && p[0] in closed
    requires forall f, t :: f in closed && Edge(upstream, f, t) ==> t in closed
    ensures p[|p| - 1] in closed
    decreases |p|
  {
    if |p| > 1 {
      assert Edge(upstream, p[0], p[1]);
      forall i | 0 <= i < |p[1..]| - 1 ensures Edge(upstream, p[1..][i], p[1..][i + 1]) {
        assert Edge(upstream, p[i + 1], p[i + 2]);
      }
      ClosedHoldsChain(upstream, closed, p[1..]);
    }
  }

  lemma ClosedHoldsReachable(upstream: Upstream, closed: set<File>, root: File)
    requires root in closed
    requires forall f, t :: f in closed && Edge(upstream, f, t) ==> t in closed
    ensures forall f :: Reachable(upstream, root, f) ==> f in closed
  {
    forall f | Reachable(upstream, root, f) ensures f in closed {
      var p :| Chain(upstream, p) && p[0] == root && p[|p| - 1] == f;
      ClosedHoldsChain(upstream, closed, p);
    }
  }

  // The breadth-first download

  /** `attempts` lists the fetches in order. */
  datatype Download = Download(includesOf: map<File, seq<File>>, failed: set<File>, attempts: seq<File>)

  ghost predicate Done(d: Download, f: File) {
    f in d.includesOf || f in d.failed
  }

  ghost predicate DownloadInv(upstream: Upstream, roots: seq<File>, d: Download) {
    // One fetch per file, whose outcome is recorded.
    && (forall i, j :: 0 <= i < j < |d.attempts| ==> d.attempts[i] != d.attempts[j])
    && (forall f :: f in d.attempts <==> Done(d, f))
    && (forall f :: f in d.includesOf ==>
          f in upstream && None !in upstream[f] && d.includesOf[f] == IR.Targets(upstream[f]))
    && (forall f :: f in d.failed ==> f !in upstream)
    // Only what the roots reach.
    && (forall f :: Done(d, f) ==> ReachableFromAny(upstream, roots, f))
  }

  /** Nothing that is needed was forgotten. */
  ghost predicate Pending(upstream: Upstream, roots: seq<File>, d: Download, queue: seq<File>) {
    && (forall f :: f in roots ==> Done(d, f) || f in queue)
    && (forall f, t :: f in d.includesOf && Edge(upstream, f, t) ==> Done(d, t) || t in queue)
    && (forall f :: f in queue ==> ReachableFromAny(upstream, roots, f))
  }

  lemma DownloadIsComplete(upstream: Upstream, roots: seq<File>, d: Download)
    requires DownloadInv(upstream, roots, d) && Pending(upstream, roots, d, [])
    ensures forall f :: ReachableFromAny(upstream, roots, f) <==> Done(d, f)
  {
    var closed := d.includesOf.Keys + d.failed;
    forall f | ReachableFromAny(upstream, roots, f) ensures Done(d, f) {
      var root :| root in roots && Reachable(upstream, root, f);
      ClosedHoldsReachable(upstream, closed, root);
    }
  }

  /** The outcome of one fetch. */
  function Record(upstream: Upstream, d: Download, file: File): Download {
    if file in upstream
    then Download(d.includesOf[file := IR.Targets(upstream[file])], d.failed, d.attempts + [file])
    else Download(d.includesOf, d.failed + {file}, d.attempts + [file])
  }

  lemma RecordKeepsInv(upstream: Upstream, roots: seq<File>, d: Download, file: File)
    requires DownloadInv(upstream, roots, d) && ReachableFromAny(upstream, roots, file) && !Done(d, file)
    requires file in upstream ==> None !in upstream[file]
    ensures DownloadInv(upstream, roots, Record(upstream, d, file))
    ensures forall f :: Done(Record(upstream, d, file), f) <==> Done(d, f) || f == file
  {
    assert file !in d.attempts;
  }

  /** `more` is what the fetched file asks for and nobody has fetched yet. */
  lemma RecordKeepsPending(
      upstream: Upstream, roots: seq<File>, d: Download, file: File, rest: seq<File>, more: seq<File>)
    requires DownloadInv(upstream, roots, d) && Pending(upstream, roots, d, [file] + rest) && !Done(d, file)
    requires file in upstream ==> None !in upstream[file]
    requires forall t :: t in more <==> t in rest || (Edge(upstream, file, t) && !Done(Record(upstream, d, file), t))
    ensures DownloadInv(upstream, roots, Record(upstream, d, file))
    ensures Pending(upstream, roots, Record(upstream, d, file), more)
  {
    assert file in [file] + rest;
    RecordKeepsInv(upstream, roots, d, file);
    forall f | f in more ensures ReachableFromAny(upstream, roots, f) {
      if f in rest {
        assert f in [file] + rest;
      } else {
        var root :| root in roots && Reachable(upstream, root, file);
        ReachableNext(upstream, root, file, f);
      }
    }
  }

  method PushUnfetched(queue: seq<File>, incs: seq<File>, d: Download) returns (r: seq<File>)
    ensures forall t :: t in r <==> t in queue || (t in incs && !Done(d, t))
  {
    r := queue;
    for k := 0 to |incs|
      invariant forall t :: t in r <==> t in queue || (t in incs[..k] && !Done(d, t))
    {
      assert incs[..k + 1] == incs[..k] + [incs[k]];
      if incs[k] !in d.includesOf && incs[k] !in d.failed {
        r := r + [incs[k]];
      }
    }
    assert incs[..|incs|] == incs;
  }

  /** Fetches each file the roots reach exactly once; stops at a file with an unsafe include name. */
  method FetchAll(upstream: Upstream, roots: seq<File>) returns (d: Download, ok: bool)
    ensures DownloadInv(upstream, roots, d)
    ensures ok ==> forall f :: ReachableFromAny(upstream, roots, f) <==> Done(d, f)
    ensures !ok <==> UnsafeNameReached(upstream, roots)
  {
    d := Download(map[], {}, []);
    var queue := roots;
    forall f | f in roots ensures ReachableFromAny(upstream, roots, f) {
      ReachableSelf(upstream, f);
    }
    while queue != []
      invariant DownloadInv(upstream, roots, d) && Pending(upstream, roots, d, queue)
      decreases upstream.Keys - d.includesOf.Keys, |queue|
    {
      var file, rest := queue[0], queue[1..];
      assert queue == [file] + rest;
      if file in d.includesOf || file in d.failed {
        queue := rest;
      } else if file !in upstream {
        RecordKeepsPending(upstream, roots, d, file, rest, rest);
        d := Record(upstream, d, file);
        queue := rest;
      } else if None in upstream[file] {
        assert ReachableFromAny(upstream, roots, file);
        return d, false;
      } else {
        var next := Record(upstream, d, file);
        queue := PushUnfetched(rest, IR.Targets(upstream[file]), next);
        RecordKeepsPending(upstream, roots, d, file, rest, queue);
        d := next;
      }
    }
    DownloadIsComplete(upstream, roots, d);
    ok := true;
  }

  // Per-root closure

  /** The walk of one root's closure looks only into files that were downloaded. */
  function Known(includesOf: map<File, seq<File>>, f: File): seq<File> {
    if f in includesOf then includesOf[f] else []
  }

  predicate Asks(includesOf: map<File, seq<File>>, f: File, t: File) {
    t in Known(includesOf, f)
  }

  ghost predicate Walk(includesOf: map<File, seq<File>>, p: seq<File>) {
    p != [] && forall i :: 0 <= i < |p| - 1 ==> Asks(includesOf, p[i], p[i + 1])
  }

  ghost predicate ReachesIn(includesOf: map<File, seq<File>>, root: File, f: File) {
    exists p :: Walk(includesOf, p) && p[0] == root && p[|p| - 1] == f
  }

  lemma ReachesSelf(includesOf: map<File, seq<File>>, root: File)
    ensures ReachesIn(includesOf, root, root)
  {
    assert Walk(includesOf, [root]);
  }

  lemma ReachesNext(includesOf: map<File, seq<File>>, root: File, f: File, t: File)
    requires ReachesIn(includesOf, root, f) && Asks(includesOf, f, t)
    ensures ReachesIn(includesOf, root, t)
  {
    var p :| Walk(includesOf, p) && p[0] == root && p[|p| - 1] == f;
    var q := p + [t];
    assert Walk(includesOf, q) && q[0] == root && q[|q| - 1] == t;
  }

  ghost predicate Closed(includesOf: map<File, seq<File>>, closed: set<File>) {
    forall f, t :: f in closed && Asks(includesOf, f, t) ==> t in closed
  }

  lemma {:induction false} ClosedHoldsWalk(includesOf: map<File, seq<File>>, closed: set<File>, p: seq<File>)
    requires Walk(includesOf, p) && p[0] in closed && Closed(includesOf, closed)
    ensures p[|p| - 1] in closed
    decreases |p|
  {
    if |p| > 1 {
      assert Asks(includesOf, p[0], p[0 + 1]);
      forall i | 0 <= i < |p[1..]| - 1 ensures Asks(includesOf, p[1..][i], p[1..][i + 1]) {
        assert Asks(includesOf, p[i + 1], p[(i + 1) + 1]);
      }
      ClosedHoldsWalk(includesOf, closed, p[1..]);
    }
  }

  lemma ClosedHoldsWalks(includesOf: map<File, seq<File>>, closed: set<File>, root: File, f: File)
    requires root in closed && Closed(includesOf, closed) && ReachesIn(includesOf, root, f)
    ensures f in closed
  {
    var p :| Walk(includesOf, p) && p[0] == root && p[|p| - 1] == f;
    ClosedHoldsWalk(includesOf, closed, p);
  }

  function AllTargets(includesOf: map<File, seq<File>>): set<File> {
    set f, t | f in includesOf && t in includesOf[f] :: t
  }

  /** Everything seen is needed and downloaded, everything noted missing is needed and failed, and of
      what was seen only the stacked files still have includes to look at. */
  ghost predicate WalkInv(includesOf: map<File, seq<File>>, failed: set<File>, root: File,
                          seen: set<File>, missing: set<File>, stack: seq<File>)
  {
    && root in seen && seen <= AllTargets(includesOf) + {root}
    && (forall f :: f in stack ==> f in seen)
    && (forall f :: f in seen ==> f !in failed)
    && (forall f :: f in missing ==> f in failed)
    && (forall f {:trigger ReachesIn(includesOf, root, f)} :: f in seen || f in missing ==>
        ReachesIn(includesOf, root, f))
    && (forall f, t :: f in seen && f !in stack && Asks(includesOf, f, t) ==> t in seen || t in missing)
  }

  ghost predicate Pushed(incs: seq<File>, failed: set<File>, seen0: set<File>, missing0: set<File>, stack0: seq<File>,
                         seen: set<File>, missing: set<File>, stack: seq<File>)
  {
    && (forall t :: t in seen <==> t in seen0 || (t in incs && t !in failed))
    && (forall t :: t in missing <==> t in missing0 || (t in incs && t in failed))
    && (forall f :: f in stack <==> f in stack0 || (f in seen && f !in seen0))
    && (seen == seen0 ==> stack == stack0)
  }

  lemma WalkStep(includesOf: map<File, seq<File>>, failed: set<File>, root: File, file: File,
                 seen0: set<File>, missing0: set<File>, stack0: seq<File>,
                 seen: set<File>, missing: set<File>, stack: seq<File>)
    requires WalkInv(includesOf, failed, root, seen0, missing0, stack0 + [file])
    requires Pushed(Known(includesOf, file), failed, seen0, missing0, stack0, seen, missing, stack)
    ensures WalkInv(includesOf, failed, root, seen, missing, stack)
  {
    assert file in stack0 + [file];
    assert forall f :: f in stack0 + [file] <==> f in stack0 || f == file;
    forall t | Asks(includesOf, file, t) ensures t in AllTargets(includesOf) && ReachesIn(includesOf, root, t) {
      ReachesNext(includesOf, root, file, t);
    }
  }

  method PushUnseen(incs: seq<File>, failed: set<File>, seen0: set<File>, missing0: set<File>, stack0: seq<File>)
    returns (seen: set<File>, missing: set<File>, stack: seq<File>)
    ensures Pushed(incs, failed, seen0, missing0, stack0, seen, missing, stack)
  {
    seen, missing, stack := seen0, missing0, stack0;
    for k := 0 to |incs|
      invariant Pushed(incs[..k], failed, seen0, missing0, stack0, seen, missing, stack)
    {
      assert incs[..k + 1] == incs[..k] + [incs[k]];
      if incs[k] in failed {
        missing := missing + {incs[k]};
      } else if incs[k] !in seen {
        seen := seen + {incs[k]};
        stack := stack + [incs[k]];
      }
    }
    assert incs[..|incs|] == incs;
  }

  lemma WalkStarts(includesOf: map<File, seq<File>>, failed: set<File>, root: File)
    requires root !in failed
    ensures WalkInv(includesOf, failed, root, {root}, {}, [root])
  {
    ReachesSelf(includesOf, root);
  }

  lemma WalkEnds(includesOf: map<File, seq<File>>, failed: set<File>, root: File, seen: set<File>, missing: set<File>)
    requires WalkInv(includesOf, failed, root, seen, missing, []) && failed !! includesOf.Keys
    ensures forall f :: f in missing <==> f in failed && ReachesIn(includesOf, root, f)
  {
    assert Closed(includesOf, seen + missing);
    forall f ensures f in missing <==> f in failed && ReachesIn(includesOf, root, f) {
      if ReachesIn(includesOf, root, f) {
        ClosedHoldsWalks(includesOf, seen + missing, root, f);
      }
    }
  }

  /** Collects exactly the failed files that the root needs. */
  method MissingInClosure(root: File, includesOf: map<File, seq<File>>, failed: set<File>) returns (missing: set<File>)
    requires root in includesOf && failed !! includesOf.Keys
    ensures forall f :: f in missing <==> f in failed && ReachesIn(includesOf, root, f)
  {
    missing := {};
    var seen := {root};
    var stack := [root];
    WalkStarts(includesOf, failed, root);
    while stack != []
      invariant WalkInv(includesOf, failed, root, seen, missing, stack)
      decreases AllTargets(includesOf) + {root} - seen, |stack|
    {
      var file, rest := stack[|stack| - 1], stack[..|stack| - 1];
      assert stack == rest + [file];
      ghost var seen0, missing0 := seen, missing;
      seen, missing, stack := PushUnseen(Known(includesOf, file), failed, seen, missing, rest);
      WalkStep(includesOf, failed, root, file, seen0, missing0, rest, seen, missing, stack);
      Shrinks(AllTargets(includesOf) + {root}, seen0, seen);
    }
    WalkEnds(includesOf, failed, root, seen, missing);
  }

  lemma Shrinks(universe: set<File>, before: set<File>, after: set<File>)
    requires forall f :: f in before ==> f in after
    requires after <= universe
    ensures before == after || universe - after < universe - before
  {
    if before != after {
      var f :| f in after && f !in before;
      assert f in universe - before && f !in universe - after;
    }
  }

  // The manifest

  /** Of the roots that were downloaded, those with something missing are unusable. */
  method ClassifyRoots(roots: seq<File>, d: Download) returns (unusable: map<File, set<File>>, usable: set<File>)
    requires d.failed !! d.includesOf.Keys
    ensures unusable.Keys !! usable
    ensures forall f :: f in unusable || f in usable <==> f in roots && f in d.includesOf
    ensures forall f :: f in usable ==> NeedsNothing(d, f)
    ensures forall f :: f in unusable ==> unusable[f] != {} && MissingFor(d, f, unusable[f])
  {
    unusable, usable := map[], {};
    for k := 0 to |roots|
      invariant unusable.Keys !! usable
      invariant forall f :: f in unusable || f in usable <==> f in roots[..k] && f in d.includesOf
      invariant forall f :: f in usable ==> NeedsNothing(d, f)
      invariant forall f :: f in unusable ==> unusable[f] != {} && MissingFor(d, f, unusable[f])
    {
      assert roots[..k + 1] == roots[..k] + [roots[k]];
      if roots[k] in d.includesOf {
        var missing := MissingInClosure(roots[k], d.includesOf, d.failed);
        assert MissingFor(d, roots[k], missing);
        if missing == {} {
          assert NeedsNothing(d, roots[k]);
          if roots[k] in unusable {
            assert false;
          }
          usable := usable + {roots[k]};
        } else {
          var f :| f in missing;
          assert roots[k] !in usable;
          unusable := unusable[roots[k] := missing];
        }
      }
    }
    assert roots[..|roots|] == roots;
  }

  method Update(upstream: Upstream, requested: seq<Option<File>>) returns (r: UpdateResult)
    ensures r.BadFile? <==> None in requested || UnsafeNameReached(upstream, IR.Targets(requested))
    ensures r.Empty? ==> forall f :: ReachableFromAny(upstream, IR.Targets(requested), f) ==> f !in upstream
    ensures r.Published? ==> r.manifest.files != map[] && Faithful(upstream, IR.Targets(requested), r.manifest)
  {
    if None in requested {
      return BadFile;
    }
    var roots := IR.Targets(requested);
    var d, ok := FetchAll(upstream, roots);
    if !ok {
      return BadFile;
    }
    if d.includesOf == map[] {
      return Empty;
    }
    var unusable, usable := ClassifyRoots(roots, d);
    var manifest := Manifest(d.includesOf, d.failed, unusable, usable);
    ManifestIsFaithful(upstream, roots, d, manifest);
    return Published(manifest);
  }

  ghost predicate MissingFor(d: Download, root: File, missing: set<File>) {
    forall f :: f in missing <==> f in d.failed && ReachesIn(d.includesOf, root, f)
  }

  ghost predicate NeedsNothing(d: Download, root: File) {
    forall f :: f in d.failed ==> !ReachesIn(d.includesOf, root, f)
  }

  /** What the manifest promises: it lists what the roots reach, split into files that exist upstream and
      files that do not, and a root is usable exactly when everything it reaches was downloaded. */
  ghost predicate Faithful(upstream: Upstream, roots: seq<File>, m: Manifest) {
    && (forall f :: f in m.files <==> ReachableFromAny(upstream, roots, f) && f in upstream)
    && (forall f :: f in m.files ==> None !in upstream[f] && m.files[f] == IR.Targets(upstream[f]))
    && (forall f :: f in m.missing <==> ReachableFromAny(upstream, roots, f) && f !in upstream)
    && (forall f :: f in m.usable <==> f in roots && forall t :: Reachable(upstream, f, t) ==> t in m.files)
    && (forall f :: f in m.unusable <==> f in roots && f in m.files && f !in m.usable)
    && (forall f, t :: f in m.unusable ==> (t in m.unusable[f] <==> t in m.missing && Reachable(upstream, f, t)))
  }

  lemma AsksIsEdge(upstream: Upstream, includesOf: map<File, seq<File>>, f: File, t: File)
    requires forall g :: g in includesOf ==> g in upstream && includesOf[g] == IR.Targets(upstream[g])
    ensures Asks(includesOf, f, t) <==> f in includesOf && Edge(upstream, f, t)
  {
  }

  lemma ReachesIsReachable(upstream: Upstream, roots: seq<File>, d: Download, root: File, f: File)
    requires DownloadInv(upstream, roots, d) && root in roots
    requires forall g :: ReachableFromAny(upstream, roots, g) <==> Done(d, g)
    ensures ReachesIn(d.includesOf, root, f) <==> Reachable(upstream, root, f)
  {
    if ReachesIn(d.includesOf, root, f) {
      var p :| Walk(d.includesOf, p) && p[0] == root && p[|p| - 1] == f;
      forall i | 0 <= i < |p| - 1 ensures Edge(upstream, p[i], p[i + 1]) {
        AsksIsEdge(upstream, d.includesOf, p[i], p[i + 1]);
      }
      assert Chain(upstream, p);
    }
    if Reachable(upstream, root, f) {
      var p :| Chain(upstream, p) && p[0] == root && p[|p| - 1] == f;
      forall i | 0 <= i < |p| - 1 ensures Asks(d.includesOf, p[i], p[i + 1]) {
        ChainIsFetched(upstream, roots, d, p, i);
        AsksIsEdge(upstream, d.includesOf, p[i], p[i + 1]);
      }
      assert Walk(d.includesOf, p);
    }
  }

  lemma ChainIsFetched(upstream: Upstream, roots: seq<File>, d: Download, p: seq<File>, i: nat)
    requires DownloadInv(upstream, roots, d) && Chain(upstream, p) && p[0] in roots && i < |p| - 1
    requires forall g :: ReachableFromAny(upstream, roots, g) <==> Done(d, g)
    ensures p[i] in d.includesOf && Edge(upstream, p[i], p[i + 1])
  {
    var q := p[..i + 1];
    assert Edge(upstream, p[i], p[i + 1]);
    assert Chain(upstream, q) && q[0] == p[0] && q[|q| - 1] == p[i];
    assert Reachable(upstream, p[0], p[i]);
    assert ReachableFromAny(upstream, roots, p[i]);
  }

  lemma ManifestIsFaithful(upstream: Upstream, roots: seq<File>, d: Download, m: Manifest)
    requires DownloadInv(upstream, roots, d)
    requires forall f :: ReachableFromAny(upstream, roots, f) <==> Done(d, f)
    requires m.files == d.includesOf && m.missing == d.failed && m.unusable.Keys !! m.usable
    requires forall f :: f in m.unusable || f in m.usable <==> f in roots && f in d.includesOf
    requires forall f :: f in m.usable ==> NeedsNothing(d, f)
    requires forall f :: f in m.unusable ==> m.unusable[f] != {} && MissingFor(d, f, m.unusable[f])
    ensures Faithful(upstream, roots, m)
  {
    forall root, f | root in roots ensures ReachesIn(d.includesOf, root, f) <==> Reachable(upstream, root, f) {
      ReachesIsReachable(upstream, roots, d, root, f);
    }
    forall root, f | root in roots && Reachable(upstream, root, f) ensures Done(d, f) {
      assert ReachableFromAny(upstream, roots, f);
    }
    forall root | root in roots
      ensures root in m.usable <==> forall t :: Reachable(upstream, root, t) ==> t in m.files
    {
      ReachableSelf(upstream, root);
      if root in m.unusable {
        var f :| f in m.unusable[root];
        assert Reachable(upstream, root, f);
      }
    }
  }

  // Loading from the snapshot

  /** The snapshot directory as the include resolver sees it: an include is found exactly if its file was
      downloaded. */
  function Snapshot(m: Manifest): map<File, IR.Document> {
    map f | f in m.files :: IR.Readable(Looked(m.files, m.files[f]))
  }

  function Looked(files: map<File, seq<File>>, incs: seq<File>): (r: seq<Option<File>>)
    ensures forall t :: Some(t) in r <==> t in incs && t in files
    ensures None in r <==> exists t :: t in incs && t !in files
  {
    if incs == [] then [] else [if incs[0] in files then Some(incs[0]) else None] + Looked(files, incs[1..])
  }

  /** The part of `Faithful` that the snapshot directory rests on. */
  ghost predicate Recorded(upstream: Upstream, m: Manifest) {
    forall f :: f in m.files ==> f in upstream && None !in upstream[f] && m.files[f] == IR.Targets(upstream[f])
  }

  lemma SnapshotEdge(upstream: Upstream, m: Manifest, f: File, t: File)
    requires Recorded(upstream, m)
    ensures IR.Edge(Snapshot(m), f, t) <==> f in m.files && Edge(upstream, f, t) && t in m.files
  {
  }

  lemma SnapshotComplete(upstream: Upstream, m: Manifest, f: File)
    requires Recorded(upstream, m) && f in m.files
    ensures IR.Complete(Snapshot(m), f) <==> forall t :: Edge(upstream, f, t) ==> t in m.files
  {
  }

  lemma ChainInSnapshot(upstream: Upstream, m: Manifest, p: seq<File>)
    requires Recorded(upstream, m) && IR.Chain(Snapshot(m), p) && p[0] in m.files
    ensures Chain(upstream, p) && p[|p| - 1] in m.files
  {
    forall i | 0 <= i < |p| - 1 ensures Edge(upstream, p[i], p[i + 1]) {
      SnapshotEdge(upstream, m, p[i], p[i + 1]);
    }
    if |p| > 1 {
      SnapshotEdge(upstream, m, p[|p| - 2], p[|p| - 2 + 1]);
    }
  }

  ghost predicate AllComplete(disk: map<File, IR.Document>, root: File) {
    forall f :: IR.Reachable(disk, root, f) ==> IR.Complete(disk, f)
  }

  lemma CompleteHoldsNext(upstream: Upstream, m: Manifest, root: File, q: seq<File>, t: File)
    requires Recorded(upstream, m) && IR.Chain(Snapshot(m), q) && q[0] == root && AllComplete(Snapshot(m), root)
    requires q[|q| - 1] in m.files && Edge(upstream, q[|q| - 1], t)
    ensures t in m.files && IR.Chain(Snapshot(m), q + [t])
  {
    var f := q[|q| - 1];
    assert IR.Reachable(Snapshot(m), root, f);
    SnapshotComplete(upstream, m, f);
    SnapshotEdge(upstream, m, f, t);
    IR.ChainGrows(Snapshot(m), q, t);
  }

  lemma {:induction false} CompleteHoldsChain(upstream: Upstream, m: Manifest, p: seq<File>, k: nat)
    requires Recorded(upstream, m) && Chain(upstream, p) && p[0] in m.files && k < |p|
    requires AllComplete(Snapshot(m), p[0])
    ensures p[k] in m.files && IR.Chain(Snapshot(m), p[..k + 1])
  {
    if k > 0 {
      CompleteHoldsChain(upstream, m, p, k - 1);
      assert Edge(upstream, p[k - 1], p[k - 1 + 1]);
      CompleteHoldsNext(upstream, m, p[0], p[..k], p[k]);
      assert p[..k + 1] == p[..k] + [p[k]];
    }
  }

  lemma CompleteMeansFetched(upstream: Upstream, m: Manifest, root: File, t: File)
    requires Recorded(upstream, m) && root in m.files && AllComplete(Snapshot(m), root)
    requires Reachable(upstream, root, t)
    ensures t in m.files
  {
    var p :| Chain(upstream, p) && p[0] == root && p[|p| - 1] == t;
    CompleteHoldsChain(upstream, m, p, |p| - 1);
  }

  lemma FetchedMeansComplete(upstream: Upstream, m: Manifest, root: File, f: File)
    requires Recorded(upstream, m) && root in m.files && IR.Reachable(Snapshot(m), root, f)
    requires forall t :: Reachable(upstream, root, t) ==> t in m.files
    ensures IR.Complete(Snapshot(m), f)
  {
    var p :| IR.Chain(Snapshot(m), p) && p[0] == root && p[|p| - 1] == f;
    ChainInSnapshot(upstream, m, p);
    forall t | Edge(upstream, f, t) ensures t in m.files {
      ReachableNext(upstream, root, f, t);
    }
    SnapshotComplete(upstream, m, f);
  }

  /** In the snapshot a root is usable exactly when the resolver finds every include it meets. */
  lemma UsableMeansComplete(upstream: Upstream, roots: seq<File>, m: Manifest, root: File)
    requires Faithful(upstream, roots, m) && root in roots && root in m.files
    ensures root in m.usable <==> AllComplete(Snapshot(m), root)
  {
    assert Recorded(upstream, m);
    if root in m.usable {
      forall f | IR.Reachable(Snapshot(m), root, f) ensures IR.Complete(Snapshot(m), f) {
        FetchedMeansComplete(upstream, m, root, f);
      }
    } else if AllComplete(Snapshot(m), root) {
      forall t | Reachable(upstream, root, t) ensures t in m.files {
        CompleteMeansFetched(upstream, m, root, t);
      }
    }
  }

  lemma SnapshotIsDisk(upstream: Upstream, m: Manifest)
    requires Recorded(upstream, m)
    ensures IR.SearchFindsFiles(Snapshot(m))
  {
    forall f, t | IR.Edge(Snapshot(m), f, t) ensures t in Snapshot(m) {
      SnapshotEdge(upstream, m, f, t);
    }
  }

  /** Loading a usable root from its snapshot can only fail on an include cycle. */
  method LoadUsable(upstream: Upstream, roots: seq<File>, m: Manifest, root: File) returns (outcome: IR.Outcome)
    requires Faithful(upstream, roots, m) && root in m.usable
    ensures outcome.Failed? ==> outcome.error.IncludeCycle? && IR.CycleReachable(Snapshot(m), root)
  {
    ReachableSelf(upstream, root);
    UsableMeansComplete(upstream, roots, m, root);
    SnapshotIsDisk(upstream, m);
    outcome := IR.ResolveXmlIncludeGraph(Snapshot(m), root);
  }
}
