/**
 The runtime asset cache: a private copy of selected files, kept up to date through a manifest of sizes and
 modification times instead of contents.  A call may be interrupted before any of its writes.

 Metadata of a source stands for its content (`content` below says which), and every file written into the
 cache gets metadata no cached file had before (`stamp`).
 */
module AssetCache {
  import opened Outcomes

  datatype Path = Path(text: string)

  datatype Source = Source(content: int, metadata: int)

  datatype Copy = Copy(content: int, stamp: nat)

  datatype Entry = Entry(source: int, cached: nat)

  /** What one call is asked to track: vendor files and selected assets, the configurations to start from, and
      what a configuration of a given content refers to (relative references, resolved). */
  datatype Plan = Plan(assets: seq<Path>, configs: set<Path>, references: (Path, int) -> seq<Path>)

  /** What a call has to work with: the sources, those of them that change while they are copied and what is then
      copied instead, and how many writes and deletions it gets to before it is interrupted. */
  datatype Job = Job(sources: map<Path, Source>, disturbed: map<Path, int>, allowed: nat)

  datatype World = World(tree: map<Path, Copy>, manifest: map<Path, Entry>, nextStamp: nat)

  /** Metadata identify the contents of sources. */
  ghost predicate Identified(content: (Path, int) -> int, sources: map<Path, Source>) {
    forall p :: p in sources ==> sources[p].content == content(p, sources[p].metadata)
  }

  /** A copy that the manifest vouches for has the content the manifest's source metadata stand for. */
  ghost predicate Faithful(content: (Path, int) -> int, w: World) {
    && (forall p :: p in w.tree ==> w.tree[p].stamp < w.nextStamp)
    && (forall p :: p in w.manifest ==> w.manifest[p].cached < w.nextStamp)
    && (forall p :: p in w.manifest && p in w.tree && w.tree[p].stamp == w.manifest[p].cached ==>
          w.tree[p].content == content(p, w.manifest[p].source))
  }

  /** The files tracked so far: each a true copy of its source, recorded as it is now. */
  ghost predicate Tracked(tree: map<Path, Copy>, files: map<Path, Entry>, sources: map<Path, Source>) {
    forall p :: p in files ==>
      && p in sources && p in tree && tree[p].content == sources[p].content
      && files[p] == Entry(sources[p].metadata, tree[p].stamp)
  }

  function Members(paths: seq<Path>): set<Path> {
    set p | p in paths
  }

  lemma MembersGrow(paths: seq<Path>, i: nat)
    requires i < |paths|
    ensures Members(paths[..i + 1]) == Members(paths[..i]) + {paths[i]}
  {
    assert paths[..i + 1] == paths[..i] + [paths[i]];
  }

  lemma MembersPrefix(paths: seq<Path>, i: nat)
    requires i <= |paths|
    ensures Members(paths[..i]) <= Members(paths)
  {
  }

  // --- Configurations to follow ----------------------------------------------------------

  predicate RefersTo(plan: Plan, sources: map<Path, Source>, p: Path, q: Path) {
    p in sources && q in sources && q in plan.references(p, sources[p].content)
  }

  /** Every existing file that a configuration of the set refers to is in the set. */
  ghost predicate Closed(plan: Plan, sources: map<Path, Source>, configs: set<Path>) {
    forall p, q :: p in configs && RefersTo(plan, sources, p, q) ==> q in configs
  }

  /** Contained in every closed set with the starting configurations. */
  ghost predicate Reached(plan: Plan, sources: map<Path, Source>, some: set<Path>) {
    forall s: set<Path> :: plan.configs <= s && Closed(plan, sources, s) ==> some <= s
  }

  /** The smallest closed set with the starting configurations. */
  ghost predicate Least(plan: Plan, sources: map<Path, Source>, seen: set<Path>) {
    plan.configs <= seen && Closed(plan, sources, seen) && Reached(plan, sources, seen)
  }

  /** Whatever a seen configuration refers to has been seen or is still to be visited. */
  ghost predicate Covered(plan: Plan, sources: map<Path, Source>, seen: set<Path>, all: set<Path>) {
    forall p, q :: p in seen && RefersTo(plan, sources, p, q) ==> q in all
  }

  function Unseen(sources: map<Path, Source>, references: seq<Path>, seen: set<Path>): set<Path> {
    set q | q in references && q in sources && q !in seen
  }

  /** Visited configurations and those to be visited. */
  ghost predicate Front(plan: Plan, sources: map<Path, Source>, seen: set<Path>, configs: set<Path>) {
    && plan.configs <= seen + configs
    && Covered(plan, sources, seen, seen + configs) && Reached(plan, sources, seen + configs)
  }

  lemma FrontStarts(plan: Plan, sources: map<Path, Source>)
    ensures Front(plan, sources, {}, plan.configs)
  {
    assert {} + plan.configs == plan.configs;
  }

  lemma FrontSkips(plan: Plan, sources: map<Path, Source>, seen: set<Path>, configs: set<Path>, p: Path)
    requires Front(plan, sources, seen, configs) && p in seen
    ensures Front(plan, sources, seen, configs - {p})
  {
    assert seen + (configs - {p}) == seen + configs;
  }

  lemma FrontVisits(plan: Plan, sources: map<Path, Source>, seen: set<Path>, configs: set<Path>, p: Path)
    requires Front(plan, sources, seen, configs) && p in configs && p in sources
    ensures Front(plan, sources, seen + {p},
                  configs - {p} + Unseen(sources, plan.references(p, sources[p].content), seen + {p}))
  {
    var found := Unseen(sources, plan.references(p, sources[p].content), seen + {p});
    var more := seen + {p} + (configs - {p} + found);
    assert seen + configs <= more;
    forall s: set<Path> | plan.configs <= s && Closed(plan, sources, s) ensures more <= s {
      assert seen + configs <= s;
      assert forall q :: q in found ==> RefersTo(plan, sources, p, q);
    }
    assert forall q :: RefersTo(plan, sources, p, q) ==> q in more;
  }

  lemma FrontEnds(plan: Plan, sources: map<Path, Source>, seen: set<Path>)
    requires Front(plan, sources, seen, {})
    ensures Least(plan, sources, seen)
  {
    assert seen + {} == seen;
  }

  /** There always is a smallest closed set. */
  lemma LeastExists(plan: Plan, sources: map<Path, Source>) returns (seen: set<Path>)
    ensures Least(plan, sources, seen)
  {
    seen := Shrunk(plan, sources, plan.configs + sources.Keys);
  }

  lemma {:induction false} Shrunk(plan: Plan, sources: map<Path, Source>, s: set<Path>) returns (seen: set<Path>)
    requires plan.configs <= s && Closed(plan, sources, s)
    ensures Least(plan, sources, seen)
    decreases s
  {
    if Reached(plan, sources, s) {
      seen := s;
    } else {
      var t: set<Path> :| plan.configs <= t && Closed(plan, sources, t) && !(s <= t);
      assert s * t < s;
      seen := Shrunk(plan, sources, s * t);
    }
  }

  lemma LeastUnique(plan: Plan, sources: map<Path, Source>, a: set<Path>, b: set<Path>)
    requires Least(plan, sources, a) && Least(plan, sources, b)
    ensures a == b
  {
    assert a <= b && b <= a;
  }

  // --- What has to be copied --------------------------------------------------------------

  /** Source and copy are as the manifest recorded them. */
  predicate UpToDate(w: World, sources: map<Path, Source>, p: Path) {
    && p in sources && p in w.manifest && w.manifest[p].source == sources[p].metadata
    && p in w.tree && w.tree[p].stamp == w.manifest[p].cached
  }

  function Stale(w: World, sources: map<Path, Source>, keys: set<Path>): set<Path> {
    set p | p in keys && !UpToDate(w, sources, p)
  }

  /** All files exist, none that must be copied changes meanwhile, and there are enough writes for them. */
  predicate Affordable(w: World, job: Job, keys: set<Path>) {
    && keys <= job.sources.Keys && Stale(w, job.sources, keys) !! job.disturbed.Keys
    && |Stale(w, job.sources, keys)| <= job.allowed
  }

  /** The files that carry metadata from after w. */
  function Written(w: World, v: World): set<Path> {
    set p | p in v.tree && v.tree[p].stamp >= w.nextStamp
  }

  /** The tree has gained the files `keys`, or new versions of them, and is otherwise the same. */
  ghost predicate Grown(before: map<Path, Copy>, after: map<Path, Copy>, keys: set<Path>) {
    && after.Keys == before.Keys + keys
    && forall p :: p in before && p !in keys ==> after[p] == before[p]
  }

  lemma GrowsOn(before: map<Path, Copy>, middle: map<Path, Copy>, keys: set<Path>, p: Path, copy: Copy)
    requires Grown(before, middle, keys)
    ensures Grown(before, middle[p := copy], keys + {p})
  {
    assert middle[p := copy].Keys == middle.Keys + {p};
  }

  /** Exactly `files` have been ensured: the stale ones are copied, everything else is as it was. */
  ghost predicate Copied(w: World, job: Job, files: map<Path, Entry>, v: World, budget: nat) {
    && Affordable(w, job, files.Keys) && Tracked(v.tree, files, job.sources)
    && v.manifest == w.manifest && Written(w, v) == Stale(w, job.sources, files.Keys)
    && Grown(w.tree, v.tree, Written(w, v)) && v.nextStamp == w.nextStamp + |Written(w, v)| && budget + |Written(w, v)| == job.allowed
  }

  /** Every file is an earlier one or one this call has copied; the manifest is the earlier one. */
  ghost predicate Framed(w: World, job: Job, wanted: set<Path>, v: World) {
    && v.manifest == w.manifest && v.nextStamp >= w.nextStamp
    && (forall p :: p in v.tree && p !in Written(w, v) ==> p in w.tree && v.tree[p] == w.tree[p])
    && (forall p :: p in Written(w, v) ==>
          && p in Stale(w, job.sources, wanted) && p in job.sources
          && v.tree[p].content == if p in job.disturbed then job.disturbed[p] else job.sources[p].content)
  }

  /** Stopped while copying, for one of the three reasons; cut short, it has used up its writes. */
  ghost predicate Stopped(w: World, job: Job, wanted: set<Path>, v: World) {
    && !Affordable(w, job, wanted) && Framed(w, job, wanted, v) && w.tree.Keys <= v.tree.Keys
    && (wanted <= job.sources.Keys && Stale(w, job.sources, wanted) !! job.disturbed.Keys ==> |Written(w, v)| == job.allowed)
  }

  lemma StaleGrows(w: World, sources: map<Path, Source>, keys: set<Path>, more: set<Path>)
    requires keys <= more
    ensures Stale(w, sources, keys) <= Stale(w, sources, more)
    ensures |Stale(w, sources, keys)| <= |Stale(w, sources, more)|
  {
    SubsetSize(Stale(w, sources, keys), Stale(w, sources, more));
  }

  lemma {:induction false} SubsetSize<T>(a: set<T>, b: set<T>)
    requires a <= b
    ensures |a| <= |b|
  {
    if a != {} {
      var x :| x in a;
      SubsetSize(a - {x}, b - {x});
    }
  }

  /** What stops a call for some files stops it for more. */
  lemma StoppedForMore(w: World, job: Job, wanted: set<Path>, more: set<Path>, v: World)
    requires Stopped(w, job, wanted, v) && wanted <= more
    ensures Stopped(w, job, more, v)
  {
    StaleGrows(w, job.sources, wanted, more);
    hide Stale, Written;
  }

  lemma StoppedIsShort(w: World, job: Job, wanted: set<Path>, v: World)
    requires Stopped(w, job, wanted, v)
    ensures !Affordable(w, job, wanted)
  {
  }

  lemma CopiedIsAffordable(w: World, job: Job, files: map<Path, Entry>, v: World, budget: nat)
    requires Copied(w, job, files, v, budget)
    ensures Affordable(w, job, files.Keys)
  {
  }

  lemma CopiedHasContent(w: World, job: Job, files: map<Path, Entry>, v: World, budget: nat, p: Path)
    requires Copied(w, job, files, v, budget) && p in files
    ensures p in job.sources && p in v.tree && v.tree[p].content == job.sources[p].content
  {
  }

  lemma NothingCopied(w: World, job: Job)
    requires forall p :: p in w.tree ==> w.tree[p].stamp < w.nextStamp
    ensures Copied(w, job, map[], w, job.allowed)
  {
    assert Written(w, w) == {} && Stale(w, job.sources, {}) == {};
  }

  lemma StaleOfOneMore(w: World, sources: map<Path, Source>, keys: set<Path>, p: Path)
    requires p !in keys
    ensures Stale(w, sources, keys + {p}) == Stale(w, sources, keys) + (if UpToDate(w, sources, p) then {} else {p})
    ensures |Stale(w, sources, keys + {p})| == |Stale(w, sources, keys)| + (if UpToDate(w, sources, p) then 0 else 1)
  {
  }

  lemma AffordsOneMore(w: World, job: Job, keys: set<Path>, p: Path)
    requires Affordable(w, job, keys) && p !in keys
    ensures Affordable(w, job, keys + {p}) <==>
            p in job.sources && (UpToDate(w, job.sources, p) || (p !in job.disturbed && |Stale(w, job.sources, keys)| < job.allowed))
  {
    StaleOfOneMore(w, job.sources, keys, p);
    assert p in keys + {p};
    var stale := Stale(w, job.sources, keys + {p});
    if p in job.sources && !UpToDate(w, job.sources, p) && p in job.disturbed {
      assert p in stale && p in job.disturbed.Keys;
    }
    hide Stale, UpToDate;
  }

  lemma TracksOneMore(tree: map<Path, Copy>, files: map<Path, Entry>, sources: map<Path, Source>, p: Path, copy: Copy)
    requires Tracked(tree, files, sources) && p !in files && p in sources && copy.content == sources[p].content
    ensures Tracked(tree[p := copy], files[p := Entry(sources[p].metadata, copy.stamp)], sources)
  {
  }

  /** Nothing about a file changes before it is its turn. */
  lemma SameBeforeItsTurn(w: World, job: Job, files: map<Path, Entry>, v: World, budget: nat, p: Path)
    requires Copied(w, job, files, v, budget) && p !in files
    ensures UpToDate(v, job.sources, p) == UpToDate(w, job.sources, p) && p !in Written(w, v)
  {
  }

  lemma Assembled(w: World, job: Job, files: map<Path, Entry>, keys: set<Path>, written: set<Path>, u: World, budget: nat)
    requires files.Keys == keys && written == Written(w, u) == Stale(w, job.sources, keys)
    requires Affordable(w, job, keys) && Tracked(u.tree, files, job.sources) && u.manifest == w.manifest
    requires Grown(w.tree, u.tree, written) && u.nextStamp == w.nextStamp + |written| && budget + |written| == job.allowed
    ensures Copied(w, job, files, u, budget)
  {
  }

  lemma KeepFacts(w: World, job: Job, files: map<Path, Entry>, v: World, budget: nat, p: Path)
    requires Copied(w, job, files, v, budget) && p !in files && UpToDate(v, job.sources, p)
    requires v.tree[p].content == job.sources[p].content
    ensures var keys, written := files.Keys + {p}, Written(w, v);
            && written == Stale(w, job.sources, keys) && Affordable(w, job, keys)
            && Tracked(v.tree, files[p := Entry(job.sources[p].metadata, v.tree[p].stamp)], job.sources)
            && v.manifest == w.manifest && Grown(w.tree, v.tree, written)
            && v.nextStamp == w.nextStamp + |written| && budget + |written| == job.allowed
  {
    SameBeforeItsTurn(w, job, files, v, budget, p);
    StaleOfOneMore(w, job.sources, files.Keys, p);
    AffordsOneMore(w, job, files.Keys, p);
    TracksOneMore(v.tree, files, job.sources, p, v.tree[p]);
    hide Written, Stale, UpToDate, Affordable, Tracked, Grown;
    assert v.tree[p := v.tree[p]] == v.tree;
  }

  lemma KeepsCopy(w: World, job: Job, files: map<Path, Entry>, v: World, budget: nat, p: Path)
    requires Copied(w, job, files, v, budget) && p !in files && UpToDate(v, job.sources, p)
    requires v.tree[p].content == job.sources[p].content
    ensures Copied(w, job, files[p := Entry(job.sources[p].metadata, v.tree[p].stamp)], v, budget)
  {
    KeepFacts(w, job, files, v, budget, p);
    assert p in job.sources && p in v.tree;
    hide *;
    Assembled(w, job, files[p := Entry(job.sources[p].metadata, v.tree[p].stamp)], files.Keys + {p}, Written(w, v), v, budget);
  }

  lemma KeepsTrueCopy(content: (Path, int) -> int, w: World, job: Job, files: map<Path, Entry>, v: World, budget: nat, p: Path)
    requires Faithful(content, v) && Identified(content, job.sources)
    requires Copied(w, job, files, v, budget) && p !in files && UpToDate(v, job.sources, p)
    ensures p in job.sources && p in v.tree
    ensures Copied(w, job, files[p := Entry(job.sources[p].metadata, v.tree[p].stamp)], v, budget)
  {
    hide Copied;
    KeepsCopy(w, job, files, v, budget, p);
  }

  function WithCopy(v: World, p: Path, content: int): World {
    v.(tree := v.tree[p := Copy(content, v.nextStamp)], nextStamp := v.nextStamp + 1)
  }

  lemma WrittenByCopy(w: World, v: World, p: Path, content: int)
    requires v.nextStamp >= w.nextStamp && p !in Written(w, v)
    ensures Written(w, WithCopy(v, p, content)) == Written(w, v) + {p}
    ensures |Written(w, WithCopy(v, p, content))| == |Written(w, v)| + 1
  {
  }

  lemma CopyFacts(w: World, job: Job, files: map<Path, Entry>, v: World, budget: nat, p: Path, copy: Copy)
    requires Copied(w, job, files, v, budget) && p !in files && !UpToDate(v, job.sources, p)
    requires p in job.sources && p !in job.disturbed && budget > 0
    requires copy == Copy(job.sources[p].content, v.nextStamp)
    ensures var keys, u, written := files.Keys + {p}, WithCopy(v, p, copy.content), Written(w, v) + {p};
            && written == Written(w, u) == Stale(w, job.sources, keys) && Affordable(w, job, keys)
            && Tracked(u.tree, files[p := Entry(job.sources[p].metadata, copy.stamp)], job.sources)
            && u.manifest == w.manifest && Grown(w.tree, u.tree, written)
            && u.nextStamp == w.nextStamp + |written| && budget - 1 + |written| == job.allowed
  {
    SameBeforeItsTurn(w, job, files, v, budget, p);
    StaleOfOneMore(w, job.sources, files.Keys, p);
    AffordsOneMore(w, job, files.Keys, p);
    TracksOneMore(v.tree, files, job.sources, p, copy);
    WrittenByCopy(w, v, p, copy.content);
    GrowsOn(w.tree, v.tree, Written(w, v), p, copy);
    hide Written, Stale, UpToDate, Affordable, Tracked, Grown;
  }

  lemma MakesCopy(w: World, job: Job, files: map<Path, Entry>, v: World, budget: nat, p: Path)
    requires Copied(w, job, files, v, budget) && p !in files && !UpToDate(v, job.sources, p)
    requires p in job.sources && p !in job.disturbed && budget > 0
    ensures Copied(w, job, files[p := Entry(job.sources[p].metadata, v.nextStamp)],
                   WithCopy(v, p, job.sources[p].content), budget - 1)
  {
    hide *;
    var copy := Copy(job.sources[p].content, v.nextStamp);
    CopyFacts(w, job, files, v, budget, p, copy);
    Assembled(w, job, files[p := Entry(job.sources[p].metadata, copy.stamp)], files.Keys + {p}, Written(w, v) + {p},
              WithCopy(v, p, copy.content), budget - 1);
  }

  lemma CopiedIsFramed(w: World, job: Job, files: map<Path, Entry>, v: World, budget: nat, wanted: set<Path>)
    requires Copied(w, job, files, v, budget) && files.Keys <= wanted
    ensures Framed(w, job, wanted, v)
  {
    StaleGrows(w, job.sources, files.Keys, wanted);
    assert forall p :: p in Written(w, v) ==> p in files;
  }

  lemma StopsShort(w: World, job: Job, files: map<Path, Entry>, v: World, budget: nat, p: Path)
    requires Copied(w, job, files, v, budget) && p !in files
    requires p !in job.sources || (!UpToDate(v, job.sources, p) && budget == 0)
    ensures Stopped(w, job, files.Keys + {p}, v)
  {
    SameBeforeItsTurn(w, job, files, v, budget, p);
    AffordsOneMore(w, job, files.Keys, p);
    CopiedIsFramed(w, job, files, v, budget, files.Keys + {p});
    assert p in files.Keys + {p};
    hide Written, Stale, UpToDate, Framed, Affordable, Tracked;
  }

  lemma FramedWithCopy(w: World, job: Job, wanted: set<Path>, v: World, p: Path)
    requires Framed(w, job, wanted, v) && p !in Written(w, v)
    requires p in Stale(w, job.sources, wanted) && p in job.sources && p in job.disturbed
    ensures Framed(w, job, wanted, WithCopy(v, p, job.disturbed[p]))
  {
    WrittenByCopy(w, v, p, job.disturbed[p]);
    hide Written, Stale;
  }

  lemma StopsDisturbed(w: World, job: Job, files: map<Path, Entry>, v: World, budget: nat, p: Path)
    requires Copied(w, job, files, v, budget) && p !in files
    requires p in job.sources && !UpToDate(v, job.sources, p) && p in job.disturbed
    ensures Stopped(w, job, files.Keys + {p}, WithCopy(v, p, job.disturbed[p]))
  {
    SameBeforeItsTurn(w, job, files, v, budget, p);
    AffordsOneMore(w, job, files.Keys, p);
    CopiedIsFramed(w, job, files, v, budget, files.Keys + {p});
    assert p in Stale(w, job.sources, files.Keys + {p}) && p in job.disturbed.Keys;
    FramedWithCopy(w, job, files.Keys + {p}, v, p);
    hide Written, Stale, UpToDate, Framed, Affordable, Tracked;
  }

  // --- A whole call -----------------------------------------------------------------------

  function Wanted(plan: Plan, seen: set<Path>): set<Path> {
    Members(plan.assets) + seen
  }

  /** Copies the previous manifest owned and the new one will not. */
  function Redundant(w: World, wanted: set<Path>): set<Path> {
    (w.manifest.Keys - wanted) * w.tree.Keys
  }

  /** The manifest is right as it stands. */
  predicate Recorded(w: World, sources: map<Path, Source>, wanted: set<Path>) {
    w.manifest.Keys == wanted && Stale(w, sources, wanted) == {}
  }

  /** A call succeeds if it can copy what is stale and then has enough operations left to delete what is redundant
      and to write the manifest if that is needed. */
  predicate Succeeds(w: World, job: Job, wanted: set<Path>) {
    && Affordable(w, job, wanted)
    && |Stale(w, job.sources, wanted)| + |Redundant(w, wanted)| + (if Recorded(w, job.sources, wanted) then 0 else 1) <= job.allowed
  }

  /** A completed call. */
  ghost predicate Completed(w: World, sources: map<Path, Source>, plan: Plan, seen: set<Path>, v: World) {
    var wanted := Wanted(plan, seen);
    && Tracked(v.tree, v.manifest, sources) && v.manifest.Keys == wanted && Least(plan, sources, seen)
    && v.tree.Keys == wanted + (w.tree.Keys - w.manifest.Keys)
    && (forall p :: p in v.tree && p !in Stale(w, sources, wanted) ==> p in w.tree && v.tree[p] == w.tree[p])
    && v.nextStamp == w.nextStamp + |Stale(w, sources, wanted)|
  }

  /** A call that raised an error or was cut short: every file is an earlier one or a copy made by this call, deleting
      begins only when everything is copied, and unless a file is missing or changing every operation was used. */
  ghost predicate Interrupted(w: World, job: Job, wanted: set<Path>, v: World) {
    var missing := w.tree.Keys - v.tree.Keys;
    && Framed(w, job, wanted, v) && missing <= Redundant(w, wanted)
    && (missing != {} ==> Written(w, v) == Stale(w, job.sources, wanted))
    && (wanted <= job.sources.Keys && Stale(w, job.sources, wanted) !! job.disturbed.Keys ==>
          |Written(w, v)| + |missing| == job.allowed)
  }

  lemma StoppedIsInterrupted(w: World, job: Job, wanted: set<Path>, v: World)
    requires Stopped(w, job, wanted, v)
    ensures Interrupted(w, job, wanted, v) && !Succeeds(w, job, wanted)
  {
    assert w.tree.Keys - v.tree.Keys == {};
    hide Framed, Written, Stale, Affordable, Redundant;
  }

  lemma FrontInLeast(plan: Plan, sources: map<Path, Source>, seen: set<Path>, configs: set<Path>, least: set<Path>)
    requires Front(plan, sources, seen, configs) && Least(plan, sources, least)
    ensures seen + configs <= least
  {
  }

  /** The new manifest is the old one exactly when that was right. */
  lemma ManifestUnchanged(content: (Path, int) -> int, w: World, job: Job, files: map<Path, Entry>, v: World, budget: nat)
    requires Faithful(content, w) && Copied(w, job, files, v, budget)
    ensures files == w.manifest <==> Recorded(w, job.sources, files.Keys)
  {
    if files == w.manifest {
      assert forall p :: p in files ==> files[p].cached == v.tree[p].stamp;
      assert Stale(w, job.sources, files.Keys) == {};
    }
    if Recorded(w, job.sources, files.Keys) {
      forall p | p in files ensures files[p] == w.manifest[p] {
        assert p !in Stale(w, job.sources, files.Keys);
      }
    }
  }

  /** After copying `files` the redundant copies `removed` have been deleted as well. */
  ghost predicate Pruned(w: World, job: Job, files: map<Path, Entry>, removed: set<Path>, v: World, budget: nat) {
    && Affordable(w, job, files.Keys) && Tracked(v.tree, files, job.sources) && removed <= Redundant(w, files.Keys)
    && Written(w, v) == Stale(w, job.sources, files.Keys)
    && v.tree.Keys == (w.tree.Keys + Written(w, v)) - removed
    && (forall p :: p in v.tree && p !in Written(w, v) ==> p in w.tree && v.tree[p] == w.tree[p])
    && v.nextStamp == w.nextStamp + |Written(w, v)| && budget + |Written(w, v)| + |removed| == job.allowed
  }

  lemma WrittenAfterPruning(w: World, v: World, removed: set<Path>)
    requires removed !! Written(w, v)
    ensures Written(w, v.(tree := v.tree - removed)) == Written(w, v)
  {
  }

  lemma RedundantIsOld(w: World, job: Job, files: map<Path, Entry>, removed: set<Path>)
    requires removed <= Redundant(w, files.Keys)
    ensures removed !! Stale(w, job.sources, files.Keys) && removed !! files.Keys && removed <= w.tree.Keys
  {
  }

  lemma TrackedAfterPruning(tree: map<Path, Copy>, files: map<Path, Entry>, sources: map<Path, Source>, removed: set<Path>)
    requires Tracked(tree, files, sources) && removed !! files.Keys
    ensures Tracked(tree - removed, files, sources)
  {
  }

  lemma PruningPrunes(w: World, job: Job, files: map<Path, Entry>, v: World, budget: nat, removed: set<Path>)
    requires Copied(w, job, files, v, budget) && removed <= Redundant(w, files.Keys) && |removed| <= budget
    ensures Pruned(w, job, files, removed, v.(tree := v.tree - removed), budget - |removed|)
  {
    RedundantIsOld(w, job, files, removed);
    WrittenAfterPruning(w, v, removed);
    TrackedAfterPruning(v.tree, files, job.sources, removed);
    hide Affordable, Tracked, Written, Stale, Redundant;
  }

  lemma Missing(all: set<Path>, more: set<Path>, removed: set<Path>)
    requires removed <= all && removed !! more
    ensures all - ((all + more) - removed) == removed
  {
  }

  /** The redundant copies are still there after copying. */
  lemma RedundantNow(w: World, job: Job, files: map<Path, Entry>, v: World, budget: nat)
    requires Copied(w, job, files, v, budget)
    ensures Redundant(w, files.Keys) == (v.manifest.Keys - files.Keys) * v.tree.Keys
  {
    StaleAreFiles(w, job.sources, files.Keys);
    hide Stale, Written;
  }

  lemma PrunedIsFramed(w: World, job: Job, files: map<Path, Entry>, removed: set<Path>, v: World, budget: nat)
    requires Pruned(w, job, files, removed, v, budget) && v.manifest == w.manifest
    ensures Framed(w, job, files.Keys, v) && w.tree.Keys - v.tree.Keys == removed
  {
    RedundantIsOld(w, job, files, removed);
    Missing(w.tree.Keys, Written(w, v), removed);
    StaleAreFiles(w, job.sources, files.Keys);
    hide Redundant, Written, Stale, UpToDate;
  }

  lemma StaleAreFiles(w: World, sources: map<Path, Source>, keys: set<Path>)
    ensures Stale(w, sources, keys) <= keys
  {
  }

  lemma PrunedStops(w: World, job: Job, files: map<Path, Entry>, removed: set<Path>, v: World)
    requires Pruned(w, job, files, removed, v, 0) && v.manifest == w.manifest
    requires removed != Redundant(w, files.Keys) || !Recorded(w, job.sources, files.Keys)
    ensures Interrupted(w, job, files.Keys, v) && !Succeeds(w, job, files.Keys)
  {
    PrunedIsFramed(w, job, files, removed, v, 0);
    hide Framed, Affordable, Written, Stale, Redundant, Tracked, Recorded;
    if removed != Redundant(w, files.Keys) {
      StrictSubsetSize(removed, Redundant(w, files.Keys));
    }
  }

  lemma StrictSubsetSize<T>(a: set<T>, b: set<T>)
    requires a < b
    ensures |a| < |b|
  {
    var x :| x in b && x !in a;
    SubsetSize(a, b - {x});
  }

  lemma PrunedCompletes(w: World, job: Job, plan: Plan, seen: set<Path>, files: map<Path, Entry>, v: World, budget: nat)
    requires Pruned(w, job, files, Redundant(w, files.Keys), v, budget)
    requires files.Keys == Wanted(plan, seen) && Least(plan, job.sources, seen)
    ensures Completed(w, job.sources, plan, seen, v.(manifest := files))
  {
    PrunedKeys(w, job, files, v, budget);
    hide Affordable, Least, Written, Stale, Redundant, Wanted, Tracked;
  }

  lemma PrunedKeys(w: World, job: Job, files: map<Path, Entry>, v: World, budget: nat)
    requires Pruned(w, job, files, Redundant(w, files.Keys), v, budget)
    ensures v.tree.Keys == files.Keys + (w.tree.Keys - w.manifest.Keys)
  {
    StaleAreFiles(w, job.sources, files.Keys);
    assert files.Keys <= v.tree.Keys;
    hide Written, Stale;
    LeftOver(w.tree.Keys, w.manifest.Keys, files.Keys, Written(w, v));
  }

  lemma LeftOver(tree: set<Path>, manifest: set<Path>, files: set<Path>, written: set<Path>)
    requires written <= files <= tree + written
    ensures (tree + written) - ((manifest - files) * tree) == files + (tree - manifest)
  {
  }

  lemma PrunedSucceeds(w: World, job: Job, files: map<Path, Entry>, v: World, budget: nat)
    requires Pruned(w, job, files, Redundant(w, files.Keys), v, budget)
    requires Recorded(w, job.sources, files.Keys) || budget >= 1
    ensures Succeeds(w, job, files.Keys)
  {
    hide Affordable, Tracked, Written, Stale, Redundant, Recorded;
  }

  lemma CompletedIsFaithful(content: (Path, int) -> int, w: World, job: Job, plan: Plan, seen: set<Path>, v: World, files: map<Path, Entry>)
    requires Faithful(content, v) && Identified(content, job.sources) && Completed(w, job.sources, plan, seen, v.(manifest := files))
    ensures Faithful(content, v.(manifest := files))
  {
    var u := v.(manifest := files);
    assert Tracked(u.tree, u.manifest, job.sources);
    hide Completed, Tracked, Identified;
    TrackedIsFaithful(content, u, job.sources);
  }

  /** The last operation: what writing the manifest, or having to and being unable to, leaves. */
  lemma ManifestDecides(content: (Path, int) -> int, w: World, job: Job, plan: Plan, seen: set<Path>,
                        files: map<Path, Entry>, v: World, budget: nat)
    requires Faithful(content, v) && Identified(content, job.sources) && v.manifest == w.manifest
    requires Pruned(w, job, files, Redundant(w, files.Keys), v, budget)
    requires files.Keys == Wanted(plan, seen) && Least(plan, job.sources, seen)
    requires files == v.manifest <==> Recorded(w, job.sources, files.Keys)
    ensures Succeeds(w, job, Wanted(plan, seen)) <==> files == v.manifest || budget > 0
    ensures files != v.manifest && budget == 0 ==> Interrupted(w, job, Wanted(plan, seen), v)
    ensures Completed(w, job.sources, plan, seen, v.(manifest := files)) && Faithful(content, v.(manifest := files))
    ensures files == v.manifest ==> v.(manifest := files) == v
  {
    hide *;
    PrunedCompletes(w, job, plan, seen, files, v, budget);
    CompletedIsFaithful(content, w, job, plan, seen, v, files);
    if files == v.manifest || budget > 0 {
      PrunedSucceeds(w, job, files, v, budget);
    } else {
      PrunedStops(w, job, files, Redundant(w, files.Keys), v);
    }
  }

  /** Where deleting ends: cut short, or ready for the manifest. */
  lemma DeletingDecides(content: (Path, int) -> int, w: World, job: Job, files: map<Path, Entry>, v: World, left: nat, removed: set<Path>)
    requires Faithful(content, w) && Copied(w, job, files, v, left)
    requires removed <= (v.manifest.Keys - files.Keys) * v.tree.Keys && |removed| <= left
    ensures var u := v.(tree := v.tree - removed);
            && v.manifest == w.manifest && (files == v.manifest <==> Recorded(w, job.sources, files.Keys))
            && (removed == (v.manifest.Keys - files.Keys) * v.tree.Keys ==> Pruned(w, job, files, Redundant(w, files.Keys), u, left - |removed|))
            && (removed != (v.manifest.Keys - files.Keys) * v.tree.Keys && |removed| == left ==>
                  Interrupted(w, job, files.Keys, u) && !Succeeds(w, job, files.Keys))
  {
    assert v.manifest == w.manifest;
    hide *;
    RedundantNow(w, job, files, v, left);
    ManifestUnchanged(content, w, job, files, v, left);
    PruningPrunes(w, job, files, v, left, removed);
    if removed != (v.manifest.Keys - files.Keys) * v.tree.Keys && |removed| == left {
      PrunedStops(w, job, files, removed, v.(tree := v.tree - removed));
    }
  }

  lemma TrackedIsFaithful(content: (Path, int) -> int, w: World, sources: map<Path, Source>)
    requires Identified(content, sources) && Tracked(w.tree, w.manifest, sources)
    requires forall p :: p in w.tree ==> w.tree[p].stamp < w.nextStamp
    ensures Faithful(content, w)
  {
  }

  // --- What a call leaves behind ------------------------------------------------------------

  /** Every tracked copy equals its source, and what the previous manifest owned beyond that is gone. */
  lemma CopiesMatch(w: World, sources: map<Path, Source>, plan: Plan, seen: set<Path>, v: World, p: Path)
    requires Completed(w, sources, plan, seen, v)
    ensures p in plan.assets || p in seen ==> p in sources && p in v.tree && v.tree[p].content == sources[p].content
    ensures p in w.manifest && p !in plan.assets && p !in seen ==> p !in v.tree
  {
  }

  /** Sources and copies are as the last completed call left them, and the same files are wanted. */
  ghost predicate Unchanged(w: World, sources: map<Path, Source>, wanted: set<Path>) {
    Tracked(w.tree, w.manifest, sources) && w.manifest.Keys == wanted
  }

  /** What the cache is for: with nothing changed since the last completed call, a call succeeds without a single
      operation and leaves everything as it is. */
  lemma UnchangedIsKept(w: World, job: Job, plan: Plan, seen: set<Path>)
    requires Unchanged(w, job.sources, Wanted(plan, seen))
    ensures Succeeds(w, job.(allowed := 0), Wanted(plan, seen)) && Succeeds(w, job, Wanted(plan, seen))
    ensures forall v :: Completed(w, job.sources, plan, seen, v) ==> v == w
  {
    hide *;
    UnchangedSucceeds(w, job, Wanted(plan, seen));
    forall v | Completed(w, job.sources, plan, seen, v) ensures v == w {
      SameWorld(w, job.sources, plan, seen, v);
    }
  }

  lemma UnchangedSucceeds(w: World, job: Job, wanted: set<Path>)
    requires Unchanged(w, job.sources, wanted)
    ensures Succeeds(w, job.(allowed := 0), wanted) && Succeeds(w, job, wanted)
  {
    NothingToDo(w, job.sources, wanted);
    hide Stale, Redundant, Tracked;
  }

  lemma NothingToDo(w: World, sources: map<Path, Source>, wanted: set<Path>)
    requires Tracked(w.tree, w.manifest, sources) && w.manifest.Keys == wanted
    ensures Stale(w, sources, wanted) == {} && Redundant(w, wanted) == {} && wanted <= sources.Keys && wanted <= w.tree.Keys
  {
  }

  lemma SameKeys(all: set<Path>, wanted: set<Path>)
    requires wanted <= all
    ensures wanted + (all - wanted) == all
  {
  }

  lemma SameMap<T>(a: map<Path, T>, b: map<Path, T>)
    requires a.Keys == b.Keys && forall p :: p in a ==> a[p] == b[p]
    ensures a == b
  {
  }

  lemma SameWorld(w: World, sources: map<Path, Source>, plan: Plan, seen: set<Path>, v: World)
    requires Unchanged(w, sources, Wanted(plan, seen)) && Completed(w, sources, plan, seen, v)
    ensures v == w
  {
    var wanted := Wanted(plan, seen);
    NothingToDo(w, sources, wanted);
    SameKeys(w.tree.Keys, wanted);
    hide Wanted, Stale, Least;
    SameMap(v.tree, w.tree);
    SameMap(v.manifest, w.manifest);
  }

  /** The cached tree holds nothing but the tracked files if and only if every file it held before was tracked then
      or is tracked now.  What an interrupted call has copied is in neither manifest: if it is no longer wanted, it stays. */
  lemma NoOrphans(w: World, sources: map<Path, Source>, plan: Plan, seen: set<Path>, v: World)
    requires Completed(w, sources, plan, seen, v)
    ensures v.tree.Keys == v.manifest.Keys <==> forall p :: p in w.tree ==> p in w.manifest || p in plan.assets || p in seen
  {
    assert forall p :: p in v.manifest.Keys <==> p in plan.assets || p in seen;
    forall p | p in w.tree && p !in w.manifest && p !in v.manifest ensures p in v.tree {
      assert p in w.tree.Keys - w.manifest.Keys;
    }
  }

  /** `rest` of the stale copies still to be looked at, the others removed from the tree where they were in it. */
  ghost predicate Removing(before: map<Path, Copy>, stale: set<Path>, rest: set<Path>, tree: map<Path, Copy>, removed: set<Path>) {
    rest <= stale && removed == (stale - rest) * before.Keys && tree == before - removed
  }

  lemma RemovingStarts(before: map<Path, Copy>, stale: set<Path>)
    ensures Removing(before, stale, stale, before, {})
  {
    assert (stale - stale) * before.Keys == {};
    assert before - {} == before;
  }

  lemma RemovingGoesOn(before: map<Path, Copy>, stale: set<Path>, rest: set<Path>, tree: map<Path, Copy>, removed: set<Path>, p: Path)
    requires Removing(before, stale, rest, tree, removed) && p in rest
    ensures p !in removed && (p in tree <==> p in before)
    ensures p !in tree ==> Removing(before, stale, rest - {p}, tree, removed)
    ensures p in tree ==> Removing(before, stale, rest - {p}, tree - {p}, removed + {p})
  {
    var more := (stale - (rest - {p})) * before.Keys;
    if p in before {
      assert more == removed + {p};
      assert before - (removed + {p}) == tree - {p};
    } else {
      assert more == removed;
    }
  }

  lemma RemovingStops(before: map<Path, Copy>, stale: set<Path>, rest: set<Path>, tree: map<Path, Copy>, removed: set<Path>)
    requires Removing(before, stale, rest, tree, removed)
    ensures removed <= stale * before.Keys && tree == before - removed
    ensures rest == {} ==> removed == stale * before.Keys
    ensures forall p :: p in rest && p in tree ==> removed != stale * before.Keys
  {
    if rest == {} {
      assert stale - rest == stale;
    }
    forall p | p in rest && p in tree ensures removed != stale * before.Keys {
      assert p in stale * before.Keys && p !in removed;
    }
  }

  lemma FaithfulWithout(content: (Path, int) -> int, w: World, p: Path)
    requires Faithful(content, w)
    ensures Faithful(content, w.(tree := w.tree - {p}))
  {
  }

  class RuntimeCache {
    ghost const content: (Path, int) -> int
    var tree: map<Path, Copy>
    var manifest: map<Path, Entry>
    var nextStamp: nat
    var budget: nat

    ghost function Model(): World
      reads this
    {
      World(tree, manifest, nextStamp)
    }

    ghost predicate Valid()
      reads this
    {
      Faithful(content, Model())
    }

    constructor (ghost content: (Path, int) -> int)
      ensures Valid() && Model() == World(map[], map[], 0) && this.content == content
    {
      this.content := content;
      tree, manifest, nextStamp, budget := map[], map[], 0, 0;
    }

    /** Writing a file; the call may be interrupted instead. */
    method Write(p: Path, content: int) returns (ok: bool)
      requires Valid()
      modifies this`tree, this`nextStamp, this`budget
      ensures Valid() && (ok <==> old(budget) > 0)
      ensures ok ==> Model() == WithCopy(old(Model()), p, content) && budget == old(budget) - 1
      ensures !ok ==> Model() == old(Model()) && budget == 0
    {
      if budget == 0 {
        return false;
      }
      budget := budget - 1;
      tree := tree[p := Copy(content, nextStamp)];
      nextStamp := nextStamp + 1;
      ok := true;
    }

    /** Copy a source unless source and copy are as recorded; a source that changed meanwhile is an error. */
    method Ensure(job: Job, p: Path, files: map<Path, Entry>, ghost w: World) returns (ok: bool, after: map<Path, Entry>)
      requires Valid() && Identified(content, job.sources) && Copied(w, job, files, Model(), budget)
      modifies this`tree, this`nextStamp, this`budget
      ensures Valid()
      ensures ok <==> (|| p in files || UpToDate(old(Model()), job.sources, p)
                       || (p in job.sources && old(budget) > 0 && p !in job.disturbed))
      ensures p in files || UpToDate(old(Model()), job.sources, p) ==> Model() == old(Model()) && budget == old(budget)
      ensures ok ==> Copied(w, job, after, Model(), budget) && after.Keys == files.Keys + {p}
      ensures !ok ==> Stopped(w, job, files.Keys + {p}, Model())
    {
      after := files;
      if p in files {
        assert files.Keys + {p} == files.Keys;
        return true, files;
      }
      ghost var before := Model();
      var upToDate := UpToDate(World(tree, manifest, nextStamp), job.sources, p);
      hide Copied, Stopped, UpToDate, Faithful, Identified;
      if upToDate {
        KeepsTrueCopy(content, w, job, files, before, budget, p);
        after := files[p := Entry(job.sources[p].metadata, tree[p].stamp)];
        return true, after;
      }
      if p !in job.sources {
        StopsShort(w, job, files, before, budget, p);
        return false, files;
      }
      ok, after := CopySource(job, p, files, w);
    }

    method CopySource(job: Job, p: Path, files: map<Path, Entry>, ghost w: World) returns (ok: bool, after: map<Path, Entry>)
      requires Valid() && Copied(w, job, files, Model(), budget)
      requires p !in files && p in job.sources && !UpToDate(Model(), job.sources, p)
      modifies this`tree, this`nextStamp, this`budget
      ensures Valid() && (ok <==> old(budget) > 0 && p !in job.disturbed)
      ensures ok ==> Copied(w, job, after, Model(), budget) && after.Keys == files.Keys + {p}
      ensures !ok ==> Stopped(w, job, files.Keys + {p}, Model())
    {
      after := files;
      ghost var before, left := Model(), budget;
      hide Copied, Stopped, UpToDate, Faithful;
      ok := Write(p, if p in job.disturbed then job.disturbed[p] else job.sources[p].content);
      if !ok {
        StopsShort(w, job, files, before, left, p);
      } else if p in job.disturbed {
        StopsDisturbed(w, job, files, before, left, p);
        ok := false;
      } else {
        MakesCopy(w, job, files, before, left, p);
        after := files[p := Entry(job.sources[p].metadata, tree[p].stamp)];
      }
    }

    method EnsureAll(job: Job, assets: seq<Path>) returns (ok: bool, files: map<Path, Entry>)
      requires Valid() && Identified(content, job.sources) && budget == job.allowed
      modifies this`tree, this`nextStamp, this`budget
      ensures Valid() && (ok <==> Affordable(old(Model()), job, Members(assets)))
      ensures ok ==> Copied(old(Model()), job, files, Model(), budget) && files.Keys == Members(assets)
      ensures !ok ==> Stopped(old(Model()), job, Members(assets), Model())
    {
      ghost var w := Model();
      files, ok := map[], true;
      NothingCopied(w, job);
      assert Members(assets[..0]) == {};
      hide Faithful, Copied, Identified, Members, Stopped;
      for i := 0 to |assets|
        invariant Valid() && Copied(w, job, files, Model(), budget) && files.Keys == Members(assets[..i])
      {
        MembersGrow(assets, i);
        ghost var wanted := files.Keys + {assets[i]};
        ok, files := Ensure(job, assets[i], files, w);
        if !ok {
          MembersPrefix(assets, i + 1);
          StoppedForMore(w, job, wanted, Members(assets), Model());
          StoppedIsShort(w, job, Members(assets), Model());
          return;
        }
      }
      assert assets[..|assets|] == assets;
      CopiedIsAffordable(w, job, files, Model(), budget);
      ok := true;
    }

    /** Visit one configuration: cache it, and find the existing files it refers to in the cached copy. */
    method VisitConfig(job: Job, plan: Plan, p: Path, files: map<Path, Entry>, seen: set<Path>, ghost configs: set<Path>, ghost w: World)
      returns (ok: bool, after: map<Path, Entry>, found: set<Path>)
      requires Valid() && Identified(content, job.sources) && Copied(w, job, files, Model(), budget)
      requires Front(plan, job.sources, seen, configs) && p in configs
      modifies this`tree, this`nextStamp, this`budget
      ensures Valid()
      ensures ok ==> Copied(w, job, after, Model(), budget) && after.Keys == files.Keys + {p} && p in job.sources
      ensures ok ==> Front(plan, job.sources, seen + {p}, configs - {p} + found)
      ensures !ok ==> Stopped(w, job, files.Keys + {p}, Model())
    {
      hide Faithful, Copied, Identified, Front, Stopped, Unseen;
      found := {};
      ok, after := Ensure(job, p, files, w);
      if ok {
        CopiedHasContent(w, job, after, Model(), budget, p);
        FrontVisits(plan, job.sources, seen, configs, p);
        found := Unseen(job.sources, plan.references(p, tree[p].content), seen + {p});
      }
    }

    /** Visit the configurations, the given ones first, and every existing file they refer to. */
    method FollowConfigs(job: Job, plan: Plan, start: map<Path, Entry>, ghost least: set<Path>, ghost w: World)
      returns (ok: bool, files: map<Path, Entry>)
      requires Valid() && Identified(content, job.sources) && Copied(w, job, start, Model(), budget)
      requires Least(plan, job.sources, least)
      modifies this`tree, this`nextStamp, this`budget
      ensures Valid() && (ok <==> Affordable(w, job, start.Keys + least))
      ensures ok ==> Copied(w, job, files, Model(), budget) && files.Keys == start.Keys + least
      ensures !ok ==> Stopped(w, job, start.Keys + least, Model())
    {
      files := start;
      var seen, configs := {}, plan.configs;
      FrontStarts(plan, job.sources);
      hide Faithful, Copied, Identified, Front, Least, Stopped;
      while configs != {}
        invariant Valid() && Copied(w, job, files, Model(), budget) && files.Keys == start.Keys + seen
        invariant seen <= job.sources.Keys && Front(plan, job.sources, seen, configs)
        decreases job.sources.Keys - seen, configs
      {
        var p :| p in configs;
        FrontInLeast(plan, job.sources, seen, configs, least);
        if p in seen {
          FrontSkips(plan, job.sources, seen, configs, p);
          configs := configs - {p};
          continue;
        }
        ghost var wanted := files.Keys + {p};
        var found;
        ok, files, found := VisitConfig(job, plan, p, files, seen, configs, w);
        if !ok {
          StoppedForMore(w, job, wanted, start.Keys + least, Model());
          StoppedIsShort(w, job, start.Keys + least, Model());
          return;
        }
        seen, configs := seen + {p}, configs - {p} + found;
      }
      FrontEnds(plan, job.sources, seen);
      LeastUnique(plan, job.sources, seen, least);
      CopiedIsAffordable(w, job, files, Model(), budget);
      ok := true;
    }

    /** Deleting a file; the call may be interrupted instead. */
    method Delete(p: Path) returns (ok: bool)
      requires Valid()
      modifies this`tree, this`budget
      ensures Valid() && (ok <==> old(budget) > 0)
      ensures ok ==> tree == old(tree) - {p} && budget == old(budget) - 1
      ensures !ok ==> tree == old(tree) && budget == 0
    {
      if budget == 0 {
        return false;
      }
      FaithfulWithout(content, Model(), p);
      budget := budget - 1;
      tree := tree - {p};
      ok := true;
    }

    /** Remove the copies the previous manifest owned and the new one does not. */
    method RemoveStale(files: map<Path, Entry>) returns (ok: bool, ghost removed: set<Path>)
      requires Valid()
      modifies this`tree, this`budget
      ensures Valid() && tree == old(tree) - removed && |removed| + budget == old(budget)
      ensures removed <= (manifest.Keys - files.Keys) * old(tree).Keys
      ensures ok <==> removed == (manifest.Keys - files.Keys) * old(tree).Keys
      ensures !ok ==> budget == 0
    {
      ghost var before, stale := tree, manifest.Keys - files.Keys;
      removed := {};
      var rest := manifest.Keys - files.Keys;
      hide Faithful, Removing;
      RemovingStarts(before, stale);
      while rest != {}
        invariant Valid() && Removing(before, stale, rest, tree, removed) && |removed| + budget == old(budget)
        decreases rest
      {
        var p :| p in rest;
        RemovingGoesOn(before, stale, rest, tree, removed, p);
        if p in tree {
          ok := Delete(p);
          if !ok {
            RemovingStops(before, stale, rest, tree, removed);
            return;
          }
          removed := removed + {p};
        }
        rest := rest - {p};
      }
      RemovingStops(before, stale, rest, tree, removed);
      ok := true;
    }

    /** One call.  It succeeds exactly if its job can be done; otherwise it stops on the way, before an operation too
        many or at a file that is missing or changing. */
    method Prepare(job: Job, plan: Plan) returns (ok: bool, ghost seen: set<Path>)
      requires Valid() && Identified(content, job.sources)
      modifies this
      ensures Valid() && Least(plan, job.sources, seen)
      ensures ok <==> Succeeds(old(Model()), job, Wanted(plan, seen))
      ensures ok ==> Completed(old(Model()), job.sources, plan, seen, Model())
      ensures !ok ==> Interrupted(old(Model()), job, Wanted(plan, seen), Model())
      ensures Unchanged(old(Model()), job.sources, Wanted(plan, seen)) ==> ok && Model() == old(Model())
    {
      seen := LeastExists(plan, job.sources);
      ghost var w := Model();
      budget := job.allowed;
      var files;
      if Unchanged(w, job.sources, Wanted(plan, seen)) {
        UnchangedIsKept(w, job, plan, seen);
      }
      hide Least, Members, Stopped, Copied, Affordable, Identified, Faithful, Succeeds, Interrupted, Completed, Unchanged;
      ok, files := EnsureAll(job, plan.assets);
      if !ok {
        StoppedForMore(w, job, Members(plan.assets), Wanted(plan, seen), Model());
        StoppedIsInterrupted(w, job, Wanted(plan, seen), Model());
        return;
      }
      ok, files := FollowConfigs(job, plan, files, seen, w);
      if !ok {
        StoppedIsInterrupted(w, job, Wanted(plan, seen), Model());
        return;
      }
      ok := Finish(job, plan, files, seen, w);
    }

    /** Everything is copied: delete what is redundant and write the manifest. */
    method Finish(job: Job, plan: Plan, files: map<Path, Entry>, ghost seen: set<Path>, ghost w: World) returns (ok: bool)
      requires Valid() && Faithful(content, w) && Identified(content, job.sources)
      requires Copied(w, job, files, Model(), budget) && files.Keys == Wanted(plan, seen) && Least(plan, job.sources, seen)
      modifies this
      ensures Valid() && (ok <==> Succeeds(w, job, Wanted(plan, seen)))
      ensures ok ==> Completed(w, job.sources, plan, seen, Model())
      ensures !ok ==> Interrupted(w, job, Wanted(plan, seen), Model())
    {
      ghost var v, left := Model(), budget;
      ghost var removed;
      hide Faithful, Identified, Copied, Least, Wanted, Recorded, Pruned, Completed, Interrupted, Succeeds, Redundant;
      ok, removed := RemoveStale(files);
      DeletingDecides(content, w, job, files, v, left, removed);
      assert Model() == v.(tree := v.tree - removed);
      if ok {
        ok := WriteManifest(job, plan, files, seen, w);
      }
    }

    /** The manifest is written last, and only if it is not right already. */
    method WriteManifest(job: Job, plan: Plan, files: map<Path, Entry>, ghost seen: set<Path>, ghost w: World) returns (ok: bool)
      requires Valid() && Identified(content, job.sources) && manifest == w.manifest
      requires Pruned(w, job, files, Redundant(w, files.Keys), Model(), budget)
      requires files.Keys == Wanted(plan, seen) && Least(plan, job.sources, seen)
      requires files == manifest <==> Recorded(w, job.sources, files.Keys)
      modifies this`manifest, this`budget
      ensures Valid() && (ok <==> Succeeds(w, job, Wanted(plan, seen)))
      ensures ok ==> Completed(w, job.sources, plan, seen, Model())
      ensures !ok ==> Interrupted(w, job, Wanted(plan, seen), Model())
    {
      hide Faithful, Identified, Least, Wanted, Recorded, Pruned, Completed, Interrupted, Succeeds, Redundant;
      ManifestDecides(content, w, job, plan, seen, files, Model(), budget);
      if files == manifest {
        return true;
      }
      if budget == 0 {
        return false;
      }
      budget := budget - 1;
      manifest := files;
      ok := true;
    }
  }

  // --- A file left behind ---------------------------------------------------------------------

  /** What a call is asked for: vendor modules and the four selected files, of which the last is the configuration,
      with the configurations beside it; none of them refers to any other. */
  function Asked(modules: seq<Path>, selections: seq<Path>, configs: set<Path>): (plan: Plan)
    ensures Wanted(plan, configs) == Members(modules) + Members(selections) + configs
    ensures plan.configs == configs && Plain(plan)
  {
    Plan(modules + selections, configs, (q: Path, content: int) => [])
  }

  ghost predicate Plain(plan: Plan) {
    forall p, content :: plan.references(p, content) == []
  }

  lemma NothingToFollow(plan: Plan, sources: map<Path, Source>, seen: set<Path>)
    requires Plain(plan) && Least(plan, sources, seen)
    ensures seen == plan.configs
  {
    assert Closed(plan, sources, plan.configs);
  }

  lemma SameSize<T>(a: set<T>, b: set<T>)
    requires a <= b && |a| == |b|
    ensures a == b
  {
    if x :| x in b && x !in a {
      SubsetSize(a, b - {x});
    }
  }

  /** Cut short just before the first manifest would be written. */
  lemma CopiesAll(w: World, job: Job, wanted: set<Path>, v: World)
    requires w.tree == map[] && w.manifest == map[] && wanted <= job.sources.Keys && wanted != {}
    requires job.disturbed == map[] && job.allowed == |wanted|
    ensures !Succeeds(w, job, wanted)
    ensures Interrupted(w, job, wanted, v) ==> v.tree.Keys == wanted && v.manifest == map[]
  {
    assert Stale(w, job.sources, wanted) == wanted;
    if Interrupted(w, job, wanted, v) {
      assert w.tree.Keys - v.tree.Keys == {};
      hide Stale;
      assert Written(w, v) <= wanted;
      SameSize(Written(w, v), wanted);
    }
  }

  lemma CanStartOver(w: World, job: Job, wanted: set<Path>)
    requires w.manifest == map[] && job.disturbed == map[] && wanted <= job.sources.Keys && job.allowed == |wanted| + 1
    ensures Succeeds(w, job, wanted)
  {
    SubsetSize(Stale(w, job.sources, wanted), wanted);
    assert Redundant(w, wanted) == {};
    hide Stale;
  }

  lemma KeepsTheRest(w: World, sources: map<Path, Source>, plan: Plan, seen: set<Path>, v: World)
    requires w.manifest == map[] && Completed(w, sources, plan, seen, v)
    ensures v.tree.Keys == Wanted(plan, seen) + w.tree.Keys && v.manifest.Keys == Wanted(plan, seen)
  {
    assert w.tree.Keys - w.manifest.Keys == w.tree.Keys;
    hide Stale, Tracked, Least, Wanted;
  }

  method CutShort(cache: RuntimeCache, sources: map<Path, Source>, plan: Plan) returns (ok: bool)
    requires cache.Valid() && Identified(cache.content, sources) && cache.tree == map[] && cache.manifest == map[]
    requires Plain(plan) && {} != Wanted(plan, plan.configs) <= sources.Keys
    modifies cache
    ensures cache.Valid() && !ok && cache.tree.Keys == Wanted(plan, plan.configs) && cache.manifest == map[]
  {
    hide Least, Wanted, Succeeds, Completed, Interrupted, Unchanged, Plain, Identified;
    ghost var w := cache.Model();
    var job := Job(sources, map[], |Wanted(plan, plan.configs)|);
    ghost var seen;
    ok, seen := cache.Prepare(job, plan);
    NothingToFollow(plan, sources, seen);
    CopiesAll(w, job, Wanted(plan, seen), cache.Model());
  }

  method StartedOver(cache: RuntimeCache, sources: map<Path, Source>, plan: Plan) returns (ok: bool)
    requires cache.Valid() && Identified(cache.content, sources) && cache.manifest == map[]
    requires Plain(plan) && Wanted(plan, plan.configs) <= sources.Keys
    modifies cache
    ensures ok && cache.manifest.Keys == Wanted(plan, plan.configs)
    ensures cache.tree.Keys == Wanted(plan, plan.configs) + old(cache.tree.Keys)
  {
    hide Least, Wanted, Succeeds, Completed, Interrupted, Unchanged, Plain, Identified;
    ghost var w := cache.Model();
    var job := Job(sources, map[], |Wanted(plan, plan.configs)| + 1);
    ghost var seen;
    ok, seen := cache.Prepare(job, plan);
    NothingToFollow(plan, sources, seen);
    CanStartOver(w, job, Wanted(plan, seen));
    KeepsTheRest(w, sources, plan, seen, cache.Model());
  }

  /** Two calls with the same selections on a new cache.  The first is interrupted when everything is copied but before
      the manifest is written; then the vendor file p is deleted, and the second call completes.  The copy of p stays,
      and the manifest does not know it. */
  method InterruptedCopyStays(sources: map<Path, Source>, front: seq<Path>, p: Path, back: seq<Path>,
                              selections: seq<Path>, configs: set<Path>)
    returns (cache: RuntimeCache, first: bool, second: bool)
    requires |selections| == 4 && selections[3] in configs
    requires p in sources && Members(front + back) + Members(selections) + configs <= sources.Keys - {p}
    ensures fresh(cache) && !first && second
    ensures cache.manifest.Keys == Members(front + back) + Members(selections) + configs
    ensures cache.tree.Keys == cache.manifest.Keys + {p} && p !in cache.manifest
  {
    ghost var content := (q: Path, m: int) => if q in sources then sources[q].content else 0;
    cache := new RuntimeCache(content);
    var all, kept := Asked(front + [p] + back, selections, configs), Asked(front + back, selections, configs);
    ghost var wanted := Members(front + back) + Members(selections) + configs;
    assert Wanted(all, configs) == wanted + {p};
    assert Identified(content, sources) && Identified(content, sources - {p});
    hide Wanted, Members, Identified, Asked, Plain;
    first := CutShort(cache, sources, all);
    second := StartedOver(cache, sources - {p}, kept);
    assert wanted + (wanted + {p}) == wanted + {p};
  }
}
