/**
 What a stack of layers means. On one side the archives as changesets, replayed oldest first on one file tree, as
 the sections "Applying Changesets" and "Whiteouts" of the OCI image layer specification describe. On the other
 side the layer folders the driver emits, newest first, through which a path is looked up.
 */
module Overlay {
  import opened GoBase
  import opened WinPath
  import opened Tar
  import opened Machine
  import opened Unpack
  import opened Runs
  import opened Histories

  type Path = seq<string>

  datatype Node = Node(info: FileInfo, data: string)

  datatype Change = Hide(path: Path) | Set(path: Path, node: Node) | Alias(path: Path, target: Path)

  // ---------------------------------------------------- archives as changesets

  /** The path a whiteout entry hides: its own path with the prefix of the last component gone. */
  function HiddenBy(name: string): Path
    requires IsWhiteout(name)
  {
    var n := LastSlash(name);
    if n + |WHITEOUT| <= |name| then Parts(name[..n] + name[n + |WHITEOUT|..]) else Parts(name)
  }

  /** What the logical entry at the head of an archive changes, read off its header. */
  function ChangeOf(es: seq<Entry>): Change
    requires es != []
  {
    var h := es[0].hdr;
    if IsWhiteout(h.name) then Hide(HiddenBy(h.name))
    else if h.typeflag == Link then Alias(Parts(h.name), Parts(h.linkname))
    else Set(Parts(h.name), Node(InfoOf(h), FileStream(es[..1 + AltCount(es[1..], h.name)])))
  }

  function Changes(es: seq<Entry>): seq<Change> {
    if es == [] then [] else [ChangeOf(es)] + Changes(es[Width(es)..])
  }

  /** An explicit whiteout of a path without backslashes, volume or trailing slash. */
  predicate OrdinaryWhiteout(name: string) {
    var n := LastSlash(name);
    && WHITEOUT <= name[n..]
    && '\\' !in name
    && Volumeless(name[..n] + name[n + |WHITEOUT|..])
  }

  predicate Ordinary(es: seq<Entry>) {
    es == [] || ((Classify(es[0].hdr) == Whiteout ==> OrdinaryWhiteout(es[0].hdr.name)) && Ordinary(es[Width(es)..]))
  }

  // ---------------------------------------------------- layers as folders

  /** What an accepted writer operation changes. */
  function Interpret(op: Op): Change {
    match op
    case OpAdd(n, info, data) => Set(Parts(n), Node(info, data))
    case OpLink(n, t) => Alias(Parts(n), Parts(t))
    case OpRemove(n) => Hide(Parts(n))
  }

  function InterpretAll(ops: seq<Op>): seq<Change> {
    if ops == [] then [] else [Interpret(ops[0])] + InterpretAll(ops[1..])
  }

  lemma TargetHides(name: string)
    requires OrdinaryWhiteout(name)
    ensures IsWhiteout(name) && Parts(WhiteoutTarget(name)) == HiddenBy(name)
  {
    hide Parts, Clean, CleanRest, WhiteoutTarget, IsWhiteout;
    var n := LastSlash(name);
    var prefix, base := name[..n], name[n + |WHITEOUT|..];
    assert name == prefix + WHITEOUT + base;
    assert '\\' !in prefix + base by {
      assert forall i :: 0 <= i < |prefix| ==> prefix[i] == name[i];
      assert forall i :: 0 <= i < |base| ==> base[i] == name[n + |WHITEOUT| + i];
    }
    assert '/' !in base by {
      assert forall i :: 0 <= i < |base| ==> base[i] == name[n + |WHITEOUT| + i];
    }
    WhiteoutDecodes(prefix, base);
    PlainClean(prefix + base);
  }

  lemma PlainClean(p: string)
    requires ':' !in p
    ensures Parts(Clean(p)) == Parts(p)
  {
    assert VolumeName(p) == "" && p[0..] == p;
    assert Clean(p) == CleanRest(p, true);
    PartsClean(p);
  }

  lemma PartsFromSlash(name: string)
    ensures Parts(FromSlash(name)) == Parts(name)
  {
    SplitFromSlash(name);
  }

  /** The operations the driver issues change what the archive says. */
  lemma {:induction false} LogicalMeans(es: seq<Entry>)
    requires Ordinary(es)
    ensures InterpretAll(Logical(es)) == Changes(es)
  {
    hide HeadOp, Width, ChangeOf, Interpret;
    if es != [] {
      var op, rest := HeadOp(es), Logical(es[Width(es)..]);
      HeadMeans(es);
      LogicalMeans(es[Width(es)..]);
      assert ([op] + rest)[1..] == rest;
    }
  }

  lemma HeadMeans(es: seq<Entry>)
    requires es != [] && (Classify(es[0].hdr) == Whiteout ==> OrdinaryWhiteout(es[0].hdr.name))
    ensures Interpret(HeadOp(es)) == ChangeOf(es)
  {
    hide Parts, FileStream, OrdinaryWhiteout;
    var h := es[0].hdr;
    PartsFromSlash(h.name);
    PartsFromSlash(h.linkname);
    if Classify(h) == Whiteout { TargetHides(h.name); }
  }

  // ---------------------------------------------------- replay

  type Tree = map<Path, Node>

  function Get(t: Tree, p: Path): Option<Node> { if p in t then Some(t[p]) else None }

  /** Setting a node replaces what was there; only a directory keeps what lies below. */
  function SetNode(t: Tree, q: Path, n: Node): Tree {
    (map p | p in t && (n.info.directory || !(q < p)) :: t[p])[q := n]
  }

  function ReplayOne(t: Tree, c: Change): Tree {
    match c
    case Hide(q) => map p | p in t && !(q <= p) :: t[p]
    case Set(q, n) => SetNode(t, q, n)
    case Alias(q, target) => if target in t then SetNode(t, q, t[target]) else t
  }

  function ReplayAll(t: Tree, cs: seq<Change>): Tree {
    if cs == [] then t else ReplayOne(ReplayAll(t, cs[..|cs| - 1]), cs[|cs| - 1])
  }

  /** All layers, oldest first. */
  function ReplayLayers(layers: seq<seq<Change>>): Tree {
    if layers == [] then map[] else ReplayAll(ReplayLayers(layers[..|layers| - 1]), layers[|layers| - 1])
  }

  // ---------------------------------------------------- lookup

  /** A layer folder: the nodes it holds and the paths it hides. */
  datatype View = View(nodes: Tree, hidden: set<Path>)

  /** The layer writer looks for a link target in its own layer, then in the parents in the order given. */
  function Search(views: seq<View>, p: Path): Option<Node> {
    if views == [] then None
    else if p in views[0].nodes then Some(views[0].nodes[p])
    else Search(views[1..], p)
  }

  /** The paths a layer whites out. */
  function Tombstones(cs: seq<Change>): set<Path> { set c | c in cs && c.Hide? :: c.path }

  /**
   One change of a layer. The writer removes the layer's own files at the tombstones when it is closed, whether they
   were added before or after, and makes the hard links after that.
   */
  function ViewOne(v: View, tombs: set<Path>, parents: seq<View>, c: Change): View {
    match c
    case Hide(q) => v.(hidden := v.hidden + {q})
    case Set(q, n) => if q in tombs then v else v.(nodes := v.nodes[q := n])
    case Alias(q, target) =>
      var r := Search([v] + parents, target);
      if r.Some? then v.(nodes := v.nodes[q := r.value]) else v
  }

  function ViewFrom(cs: seq<Change>, tombs: set<Path>, parents: seq<View>): View {
    if cs == [] then View(map[], {}) else ViewOne(ViewFrom(cs[..|cs| - 1], tombs, parents), tombs, parents, cs[|cs| - 1])
  }

  function ViewAll(cs: seq<Change>, parents: seq<View>): View { ViewFrom(cs, Tombstones(cs), parents) }

  /** The layer lets nothing older show at `p`: it hides `p` or an ancestor, or puts a file where an ancestor was. */
  predicate Covers(v: View, p: Path) {
    exists n :: 0 <= n <= |p| && (p[..n] in v.hidden || (n < |p| && p[..n] in v.nodes && !v.nodes[p[..n]].info.directory))
  }

  /** Looking a path up, newest folder first. */
  function Lookup(views: seq<View>, p: Path): Option<Node> {
    if views == [] then None
    else if p in views[0].nodes then Some(views[0].nodes[p])
    else if Covers(views[0], p) then None
    else Lookup(views[1..], p)
  }

  /** The folders of all layers, newest first. */
  function Views(layers: seq<seq<Change>>): seq<View> {
    if layers == [] then []
    else
      var older := Views(layers[..|layers| - 1]);
      [ViewAll(layers[|layers| - 1], older)] + older
  }

  // ---------------------------------------------------- the two agree

  /**
   A change does not contradict its own layer: no whiteout or file takes away what the same layer added before it
   at or below that path, no directory replaces a file of the same layer, and a link's target is there when the link
   is made. `t` is the tree so far, `added` what this layer has added.
   */
  predicate Consistent(t: Tree, added: set<Path>, c: Change) {
    match c
    case Hide(q) => forall p :: p in added ==> !(q <= p)
    case Set(q, n) => Placeable(t, added, q, n)
    case Alias(q, target) => target in t && Placeable(t, added, q, t[target])
  }

  predicate Placeable(t: Tree, added: set<Path>, q: Path, n: Node) {
    if n.info.directory then q in added && q in t ==> t[q].info.directory
    else forall p :: p in added ==> !(q < p)
  }

  function AddedBy(cs: seq<Change>): set<Path> {
    if cs == [] then {}
    else AddedBy(cs[..|cs| - 1]) + if cs[|cs| - 1].Hide? then {} else {cs[|cs| - 1].path}
  }

  predicate ConsistentLayer(t: Tree, cs: seq<Change>) {
    cs == [] ||
    (ConsistentLayer(t, cs[..|cs| - 1]) && Consistent(ReplayAll(t, cs[..|cs| - 1]), AddedBy(cs[..|cs| - 1]), cs[|cs| - 1]))
  }

  /** No path is both added and whited out in the layer, in whatever order. */
  predicate NoClash(cs: seq<Change>) { forall c :: c in cs && !c.Hide? ==> c.path !in Tombstones(cs) }

  predicate ConsistentImage(layers: seq<seq<Change>>) {
    layers == [] ||
    (&& ConsistentImage(layers[..|layers| - 1])
     && NoClash(layers[|layers| - 1]) && ConsistentLayer(ReplayLayers(layers[..|layers| - 1]), layers[|layers| - 1]))
  }

  ghost predicate Same(t: Tree, views: seq<View>) { forall p: Path :: Get(t, p) == Lookup(views, p) }

  /** A path that a lookup finds, the writer's search finds too, with the same node. */
  lemma {:induction false} SearchFinds(views: seq<View>, p: Path)
    requires Lookup(views, p).Some?
    ensures Search(views, p) == Lookup(views, p)
  {
    if p !in views[0].nodes { SearchFinds(views[1..], p); }
  }

  lemma {:induction false} StackLookup(v: View, older: seq<View>, p: Path)
    ensures Lookup([v] + older, p) ==
            if p in v.nodes then Some(v.nodes[p]) else if Covers(v, p) then None else Lookup(older, p)
  {
    assert ([v] + older)[1..] == older;
  }

  lemma PrefixOf(q: Path, p: Path)
    requires q <= p
    ensures p[..|q|] == q
  {
  }

  lemma HideSame(t: Tree, v: View, older: seq<View>, q: Path)
    requires Same(t, [v] + older) && forall p :: p in v.nodes ==> !(q <= p)
    ensures Same(ReplayOne(t, Hide(q)), [v.(hidden := v.hidden + {q})] + older)
  {
    var v', t' := v.(hidden := v.hidden + {q}), ReplayOne(t, Hide(q));
    forall p: Path
      ensures Get(t', p) == Lookup([v'] + older, p)
    {
      StackLookup(v, older, p);
      StackLookup(v', older, p);
      assert Get(t, p) == Lookup([v] + older, p);
      if q <= p {
        PrefixOf(q, p);
        assert p[..|q|] in v'.hidden;
        assert Covers(v', p);
      } else {
        assert Covers(v', p) <==> Covers(v, p) by { CoverHide(v, v', q, p); }
      }
    }
  }

  lemma CoverHide(v: View, v': View, q: Path, p: Path)
    requires v' == v.(hidden := v.hidden + {q}) && !(q <= p)
    ensures Covers(v', p) <==> Covers(v, p)
  {
    assert forall n :: 0 <= n <= |p| ==> p[..n] <= p;
    assert forall n :: 0 <= n <= |p| ==> p[..n] != q;
  }

  lemma SetSame(t: Tree, v: View, older: seq<View>, q: Path, n: Node)
    requires Same(t, [v] + older) && Placeable(t, v.nodes.Keys, q, n)
    ensures Same(SetNode(t, q, n), [v.(nodes := v.nodes[q := n])] + older)
  {
    var v', t' := v.(nodes := v.nodes[q := n]), SetNode(t, q, n);
    forall p: Path
      ensures Get(t', p) == Lookup([v'] + older, p)
    {
      StackLookup(v, older, p);
      StackLookup(v', older, p);
      assert Get(t, p) == Lookup([v] + older, p) && Get(t, q) == Lookup([v] + older, q);
      StackLookup(v, older, q);
      if p != q {
        CoverSet(v, v', q, n, p);
      }
    }
  }

  lemma CoverSet(v: View, v': View, q: Path, n: Node, p: Path)
    requires v' == v.(nodes := v.nodes[q := n])
    requires q in v.nodes && n.info.directory ==> v.nodes[q].info.directory
    ensures q < p && !n.info.directory ==> Covers(v', p)
    ensures !(q < p && !n.info.directory) ==> (Covers(v', p) <==> Covers(v, p))
  {
    if q < p && !n.info.directory {
      PrefixOf(q, p);
      assert |q| < |p| && p[..|q|] in v'.nodes;
    } else {
      assert forall k :: 0 <= k < |p| ==> p[..k] < p;
      forall k | 0 <= k < |p|
        ensures p[..k] in v'.nodes && !v'.nodes[p[..k]].info.directory <==> p[..k] in v.nodes && !v.nodes[p[..k]].info.directory
      {
        assert p[..k] == q ==> q < p;
      }
    }
  }

  /** Within one layer, change by change. */
  lemma {:induction false} LayerSame(t: Tree, older: seq<View>, cs: seq<Change>, tombs: set<Path>)
    requires Same(t, older) && ConsistentLayer(t, cs) && forall c :: c in cs && !c.Hide? ==> c.path !in tombs
    ensures Same(ReplayAll(t, cs), [ViewFrom(cs, tombs, older)] + older)
    ensures ViewFrom(cs, tombs, older).nodes.Keys == AddedBy(cs)
  {
    hide Same, Lookup, Search;
    if cs == [] {
      EmptyLayer(t, older);
    } else {
      var init, c := cs[..|cs| - 1], cs[|cs| - 1];
      LayerSame(t, older, init, tombs);
      var t1, v := ReplayAll(t, init), ViewFrom(init, tombs, older);
      match c
      case Hide(q) => HideSame(t1, v, older, q);
      case Set(q, n) => SetSame(t1, v, older, q, n);
      case Alias(q, target) =>
        SameFinds(t1, v, older, target);
        SetSame(t1, v, older, q, t1[target]);
    }
  }

  lemma SameFinds(t: Tree, v: View, older: seq<View>, p: Path)
    requires Same(t, [v] + older) && p in t
    ensures Search([v] + older, p) == Some(t[p])
  {
    assert Get(t, p) == Lookup([v] + older, p);
    SearchFinds([v] + older, p);
  }

  lemma EmptyLayer(t: Tree, older: seq<View>)
    requires Same(t, older)
    ensures Same(t, [View(map[], {})] + older)
  {
    forall p: Path
      ensures Get(t, p) == Lookup([View(map[], {})] + older, p)
    {
      StackLookup(View(map[], {}), older, p);
      assert Get(t, p) == Lookup(older, p);
    }
  }

  /** Looking paths up through the folders, newest first, is replaying the changesets, oldest first. */
  lemma {:induction false} LayersSame(layers: seq<seq<Change>>)
    requires ConsistentImage(layers)
    ensures Same(ReplayLayers(layers), Views(layers))
  {
    if layers != [] {
      LayersSame(layers[..|layers| - 1]);
      var top := layers[|layers| - 1];
      LayerSame(ReplayLayers(layers[..|layers| - 1]), Views(layers[..|layers| - 1]), top, Tombstones(top));
    }
  }

  /** The two do differ for a path that one layer first whites out and then adds. */
  lemma ClashLost(q: Path, n: Node)
    ensures var layer := [Hide(q), Set(q, n)];
            && ConsistentLayer(map[], layer) && !NoClash(layer)
            && Get(ReplayLayers([layer]), q) == Some(n) && Lookup(Views([layer]), q) == None
  {
    var layer := [Hide(q), Set(q, n)];
    var t: Tree, first := map[], layer[..1];
    var layers, none: seq<seq<Change>> := [layer], [];
    assert first == [Hide(q)] && layer[..|layer| - 1] == first && first[..|first| - 1] == [] && layers[..0] == none;
    assert layer[0] in layer && layer[1] in layer && q in Tombstones(layer);
    assert ReplayAll(t, first) == ReplayOne(t, Hide(q)) == t;
    assert ReplayAll(t, layer) == ReplayOne(t, Set(q, n)) == SetNode(t, q, n);
    assert AddedBy(first) == {};
    assert ConsistentLayer(t, first) by { assert Consistent(t, {}, Hide(q)); }
    assert Consistent(t, {}, Set(q, n));
    var v, empty := ViewAll(layer, []), View(map[], {});
    assert ViewFrom(first, Tombstones(layer), []) == ViewOne(empty, Tombstones(layer), [], Hide(q)) == View(map[], {q});
    assert v == View(map[], {q});
    assert Views(layers) == [v];
    assert q[..|q|] == q;
    assert Covers(v, q);
  }

  // ---------------------------------------------------- images on the disk

  /** The layer folders on the disk, each seen on the parents its writer was given. */
  predicate Chained(d: Disk, folders: seq<string>) {
    folders == [] ||
    (&& folders[0] in d.folders && d.folders[folders[0]].sealed && d.folders[folders[0]].parents == folders[1..]
     && Chained(d, folders[1..]))
  }

  /** In a base layer the driver's own files stand where the archive may have put entries of their names. */
  function ShownOp(f: Folder, op: Op): Op {
    if f.parents == [] && !op.OpRemove? && RootFile(op.name) in f.files then
      OpAdd(op.name, FileInfo(false, 0), f.files[RootFile(op.name)])
    else op
  }

  /** What a layer folder shows of the operations its writer accepted. */
  function Shown(f: Folder): seq<Op> { seq(|f.entries|, i requires 0 <= i < |f.entries| => ShownOp(f, f.entries[i])) }

  function DiskViews(d: Disk, folders: seq<string>): seq<View>
    requires Chained(d, folders)
  {
    if folders == [] then []
    else
      var parents := DiskViews(d, d.folders[folders[0]].parents);
      [ViewAll(InterpretAll(Shown(d.folders[folders[0]])), parents)] + parents
  }

  /** An image: layer IDs and archives, oldest first. */
  datatype Image = Image(ids: seq<string>, tapes: seq<Tape>)

  function JobOf(store: string, image: Image, k: nat): Job
    requires k < |image.ids| == |image.tapes|
  {
    Job(LayerPath(store, image.ids[k]), FolderList(store, image.ids[..k]), image.tapes[k])
  }

  function AllChanges(tapes: seq<Tape>): seq<seq<Change>> {
    if tapes == [] then [] else AllChanges(tapes[..|tapes| - 1]) + [Changes(tapes[|tapes| - 1].entries)]
  }

  /** Layer `k` has whiteouts of the ordinary kind, and no entries in the place of the driver's files. */
  predicate Plain(store: string, image: Image, k: nat)
    requires k < |image.ids| == |image.tapes|
  {
    Ordinary(image.tapes[k].entries) && Undisturbed(JobOf(store, image, k))
  }

  /** The folder of layer `k` is the finished layer. */
  predicate LayerDone(d: Disk, store: string, image: Image, k: nat)
    requires k < |image.ids| == |image.tapes|
  {
    var job := JobOf(store, image, k);
    job.path in d.folders && d.folders[job.path] == Finished(job)
  }

  /** The archive of a base layer has no entries that the driver's own files replace. */
  predicate Undisturbed(job: Job) {
    job.parents == [] ==>
      forall op :: op in Logical(job.tape.entries) && !op.OpRemove? ==> RootFile(op.name) !in Finished(job).files
  }

  /** A finished layer shows its archive, entry by entry, except where the driver's files replace entries. */
  lemma FinishedShows(job: Job, i: nat)
    requires i < |Logical(job.tape.entries)|
    ensures var f, op := Finished(job), Logical(job.tape.entries)[i];
            && |Shown(f)| == |Logical(job.tape.entries)|
            && (if job.parents == [] && !op.OpRemove? && RootFile(op.name) in f.files then
                  Shown(f)[i] == OpAdd(op.name, FileInfo(false, 0), f.files[RootFile(op.name)])
                else Shown(f)[i] == op)
  {
    hide Finished, Logical, RootFile;
    FinishedMeans(job);
  }

  lemma UndisturbedShows(job: Job)
    requires Undisturbed(job)
    ensures Shown(Finished(job)) == Logical(job.tape.entries)
  {
    hide Finished, Logical, RootFile;
    FinishedMeans(job);
    var ops := Logical(job.tape.entries);
    forall i | 0 <= i < |ops|
      ensures Shown(Finished(job))[i] == ops[i]
    {
      FinishedShows(job, i);
      assert ops[i] in ops;
    }
  }

  lemma {:induction false} DiskViewsAre(d: Disk, store: string, image: Image)
    requires |image.ids| == |image.tapes|
    requires forall k :: 0 <= k < |image.ids| ==> Plain(store, image, k)
    requires forall k :: 0 <= k < |image.ids| ==> LayerDone(d, store, image, k)
    ensures Chained(d, FolderList(store, image.ids))
    ensures DiskViews(d, FolderList(store, image.ids)) == Views(AllChanges(image.tapes))
    decreases |image.ids|
  {
    hide Finished, ViewAll, InterpretAll, Changes, Ordinary, Undisturbed, Shown, LayerPath;
    var n := |image.ids|;
    if n > 0 {
      var older := Image(image.ids[..n - 1], image.tapes[..n - 1]);
      forall k | 0 <= k < n - 1
        ensures LayerDone(d, store, older, k) && Plain(store, older, k)
      {
        assert older.ids[..k] == image.ids[..k];
        assert JobOf(store, older, k) == JobOf(store, image, k) && LayerDone(d, store, image, k) && Plain(store, image, k);
      }
      DiskViewsAre(d, store, older);
      var top := JobOf(store, image, n - 1);
      assert LayerDone(d, store, image, n - 1) && Plain(store, image, n - 1);
      FinishedMeans(top);
      UndisturbedShows(top);
      LogicalMeans(top.tape.entries);
      SealedFinished(top);
      var list := FolderList(store, image.ids);
      assert list[1..] == FolderList(store, older.ids);
      var layers := AllChanges(image.tapes);
      assert layers[..|layers| - 1] == AllChanges(older.tapes) && layers[|layers| - 1] == Changes(top.tape.entries);
    }
  }

  lemma SealedFinished(job: Job)
    ensures Finished(job).sealed
  {
  }

  /** What the history has to grant the layer of a job: its own archive, its own folder, and no forged marker. */
  predicate ServesJob(h: seq<Action>, store: string, job: Job) {
    SameJob(h, job) && Spares(store, h, job.path) && AllClear(h, job.path)
  }

  /** The same for the layers of the image from the `n`th on. */
  predicate Serves(h: seq<Action>, store: string, image: Image, n: nat)
    requires |image.ids| == |image.tapes|
  {
    forall k :: n <= k < |image.ids| ==> ServesJob(h, store, JobOf(store, image, k))
  }

  /** Layer `k` is committed and sealed. */
  predicate Settled(d: Disk, store: string, image: Image, k: nat)
    requires k < |image.ids|
  {
    var path := LayerPath(store, image.ids[k]);
    Marked(d, path) && d.folders[path].sealed
  }

  /**
   The meaning of an image. After any history of operations on an empty store, with any failures and kills: once
   every layer of the image is committed and sealed, looking a path up through the layer folders in the order in
   which the driver emits them gives what replaying the archives oldest first gives.
   */
  lemma ImageMeaning(h: seq<Action>, store: string, image: Image, p: Path)
    requires |image.ids| == |image.tapes| && Serves(h, store, image, 0)
    requires forall k :: 0 <= k < |image.ids| ==> Plain(store, image, k)
    requires forall k :: 0 <= k < |image.ids| ==> Settled(History(store, EMPTY, h), store, image, k)
    requires ConsistentImage(AllChanges(image.tapes))
    ensures var d := History(store, EMPTY, h);
            && Chained(d, FolderList(store, image.ids))
            && Lookup(DiskViews(d, FolderList(store, image.ids)), p) == Get(ReplayLayers(AllChanges(image.tapes)), p)
  {
    hide History, Finished, ConsistentImage, Lookup, Plain, LayerPath, SameJob, Spares, AllClear;
    var d := History(store, EMPTY, h);
    forall k | 0 <= k < |image.ids|
      ensures LayerDone(d, store, image, k)
    {
      var job := JobOf(store, image, k);
      assert ServesJob(h, store, job) && Settled(d, store, image, k);
      CommittedIsComplete(store, h, job);
      assert d.folders[job.path].(sealed := true) == d.folders[job.path];
    }
    DoneMeans(d, store, image, p);
  }

  /** The same from a disk on which the layers are finished. */
  lemma DoneMeans(d: Disk, store: string, image: Image, p: Path)
    requires |image.ids| == |image.tapes| && ConsistentImage(AllChanges(image.tapes))
    requires forall k :: 0 <= k < |image.ids| ==> Plain(store, image, k) && LayerDone(d, store, image, k)
    ensures Chained(d, FolderList(store, image.ids))
    ensures Lookup(DiskViews(d, FolderList(store, image.ids)), p) == Get(ReplayLayers(AllChanges(image.tapes)), p)
  {
    hide ConsistentImage, Lookup, Plain, LayerDone;
    DiskViewsAre(d, store, image);
    LayersSame(AllChanges(image.tapes));
  }

  // ---------------------------------------------------- pulling an image

  /** After the history `h`, the first `n` layers of the image are unpacked in order, without failure. */
  function Pulled(h: seq<Action>, store: string, image: Image, env: Env, n: nat): seq<Action>
    requires n <= |image.ids| == |image.tapes|
  {
    if n == 0 then h else Pulled(h, store, image, env, n - 1) + [OnLayer(Run(env, JobOf(store, image, n - 1), None))]
  }

  /** The archives are sound, the layers have folders of their own, and none was committed without its seal. */
  ghost predicate Pullable(h: seq<Action>, store: string, image: Image) {
    && |image.ids| == |image.tapes| && Serves(h, store, image, 0) && DistinctLayers(store, image)
    && (forall k :: 0 <= k < |image.ids| ==>
          && Sound(image.tapes[k].entries) && !image.tapes[k].broken
          && Resealable(History(store, EMPTY, h), LayerPath(store, image.ids[k])))
  }

  predicate DistinctLayers(store: string, image: Image) {
    forall i, j :: 0 <= i < j < |image.ids| ==> LayerPath(store, image.ids[i]) != LayerPath(store, image.ids[j])
  }

  predicate Resealable(d: Disk, path: string) { Marked(d, path) ==> d.folders[path].sealed }

  /**
   An image is pullable after any history in which every archive offered for its layers was truncated or corrupt,
   and none of them had got to an entry of the marker's name.
   */
  lemma UnreadPullable(h: seq<Action>, store: string, image: Image)
    requires |image.ids| == |image.tapes| && DistinctLayers(store, image)
    requires forall k :: 0 <= k < |image.ids| ==> Sound(image.tapes[k].entries) && !image.tapes[k].broken
    requires forall k :: 0 <= k < |image.ids| ==>
               var path := LayerPath(store, image.ids[k]); Spares(store, h, path) && AllClear(h, path)
    requires forall i, k :: 0 <= i < |h| && h[i].OnLayer? && 0 <= k < |image.ids| ==> !Readable(h[i].run.job, LayerPath(store, image.ids[k]))
    ensures Pullable(h, store, image)
  {
    hide History, LayerPath, Spares, Sound, Finished, FolderList, AllClear, CallsOf;
    forall k | 0 <= k < |image.ids|
      ensures Resealable(History(store, EMPTY, h), LayerPath(store, image.ids[k]))
    {
      var path := LayerPath(store, image.ids[k]);
      if Marked(History(store, EMPTY, h), path) { CommitMarker(store, EMPTY, h, path); }
    }
  }

  /** From `d` to `d'` the first `n` layers have been finished and every other folder is as it was. */
  ghost predicate PulledTo(d: Disk, d': Disk, store: string, image: Image, n: nat)
    requires n <= |image.ids| == |image.tapes|
  {
    && (forall k :: 0 <= k < n ==> LayerDone(d', store, image, k))
    && (forall q :: !IsLayer(store, image, n, q) ==> At(d', q) == At(d, q))
  }

  /** The folder of one of the first `n` layers. */
  predicate IsLayer(store: string, image: Image, n: nat, q: string)
    requires n <= |image.ids|
  {
    exists k :: 0 <= k < n && q == LayerPath(store, image.ids[k])
  }

  /** Unpacking the first `n` layers finishes exactly them. */
  lemma {:induction false} PullReaches(h: seq<Action>, store: string, image: Image, env: Env, n: nat)
    requires Pullable(h, store, image) && FailureFree(env) && n <= |image.ids|
    ensures Serves(Pulled(h, store, image, env, n), store, image, n)
    ensures PulledTo(History(store, EMPTY, h), History(store, EMPTY, Pulled(h, store, image, env, n)), store, image, n)
  {
    hide AfterRun, FailureFree, UnpackRun, Sound, LayerPath, Finished, ServesJob, JobOf;
    if n > 0 {
      PullReaches(h, store, image, env, n - 1);
      var h1, job := Pulled(h, store, image, env, n - 1), JobOf(store, image, n - 1);
      JobPath(store, image, n - 1);
      var a := OnLayer(Run(env, job, None));
      var h2 := Pulled(h, store, image, env, n);
      assert h2[..|h2| - 1] == h1 && h2[|h2| - 1] == a;
      ServesMore(h1, store, image, n - 1, a);
      var d, d1 := History(store, EMPTY, h), History(store, EMPTY, h1);
      assert ServesJob(h1, store, job);
      assert !IsLayer(store, image, n - 1, job.path);
      assert At(d1, job.path) == At(d, job.path) && Resealable(d, job.path);
      PullOne(h1, store, env, job);
      PullStep(d, d1, History(store, EMPTY, h2), store, image, n);
    }
  }

  lemma JobPath(store: string, image: Image, k: nat)
    requires k < |image.ids| == |image.tapes|
    ensures JobOf(store, image, k).path == LayerPath(store, image.ids[k])
    ensures JobOf(store, image, k).tape == image.tapes[k]
  {
  }

  lemma PullStep(d: Disk, d1: Disk, d2: Disk, store: string, image: Image, n: nat)
    requires 0 < n <= |image.ids| == |image.tapes| && PulledTo(d, d1, store, image, n - 1) && DistinctLayers(store, image)
    requires var job := JobOf(store, image, n - 1);
             Elsewhere(d1, d2, job.path) && job.path in d2.folders && d2.folders[job.path] == Finished(job)
    ensures PulledTo(d, d2, store, image, n)
  {
    hide LayerPath, Finished, Elsewhere, FolderList;
    var job := JobOf(store, image, n - 1);
    forall k | 0 <= k < n
      ensures LayerDone(d2, store, image, k)
    {
      if k < n - 1 {
        assert LayerDone(d1, store, image, k);
        ElsewhereKeeps(d1, d2, job.path, LayerPath(store, image.ids[k]));
      }
    }
    forall q | !IsLayer(store, image, n, q)
      ensures At(d2, q) == At(d, q)
    {
      assert q != LayerPath(store, image.ids[n - 1]) && !IsLayer(store, image, n - 1, q);
      ElsewhereKeeps(d1, d2, job.path, q);
    }
  }

  lemma ServesMore(h: seq<Action>, store: string, image: Image, i: nat, a: Action)
    requires i < |image.ids| == |image.tapes| && Serves(h, store, image, i) && DistinctLayers(store, image)
    requires a.OnLayer? && a.run.job == JobOf(store, image, i)
    ensures Serves(h + [a], store, image, i + 1)
  {
    hide LayerPath, FolderList, Sound, Clear;
    forall k | i + 1 <= k < |image.ids|
      ensures ServesJob(h + [a], store, JobOf(store, image, k))
    {
      assert ServesJob(h, store, JobOf(store, image, k));
      assert LayerPath(store, image.ids[k]) != LayerPath(store, image.ids[i]);
    }
  }

  lemma PullOne(h: seq<Action>, store: string, env: Env, job: Job)
    requires FailureFree(env) && Sound(job.tape.entries) && !job.tape.broken && ServesJob(h, store, job)
    requires Resealable(History(store, EMPTY, h), job.path)
    ensures var d := History(store, EMPTY, h);
            var d' := AfterRun(d, Run(env, job, None));
            job.path in d'.folders && d'.folders[job.path] == Finished(job) && Elsewhere(d, d', job.path)
  {
    hide UnpackRun, History, Sound, SameJob, Spares, AllClear, CallsOf, Elsewhere, Complete, Clear;
    var d := History(store, EMPTY, h);
    Convergence(store, h, env, job);
    WholeRun(d, env, job);
    RunIsSafe(d, Run(env, job, None));
    SealedFinished(job);
  }

  /**
   Pulling an image after any history that committed none of its layers without a seal: when the last run is done,
   looking a path up through the emitted layer folders is replaying the archives.
   */
  lemma PulledImage(h: seq<Action>, store: string, image: Image, env: Env, p: Path)
    requires Pullable(h, store, image) && FailureFree(env)
    requires forall k :: 0 <= k < |image.ids| ==> Plain(store, image, k)
    requires ConsistentImage(AllChanges(image.tapes))
    ensures var d := History(store, EMPTY, Pulled(h, store, image, env, |image.ids|));
            && Chained(d, FolderList(store, image.ids))
            && Lookup(DiskViews(d, FolderList(store, image.ids)), p) == Get(ReplayLayers(AllChanges(image.tapes)), p)
  {
    hide History, ConsistentImage, Lookup, Plain, LayerPath, Sound, LayerDone;
    PullReaches(h, store, image, env, |image.ids|);
    DoneMeans(History(store, EMPTY, Pulled(h, store, image, env, |image.ids|)), store, image, p);
  }
}
