/** driver/unpack.go: the meaning of one run of `Unpack`, as a function of the disk and the environment. */
module Unpack {
  import opened GoBase
  import opened WinPath
  import opened Tar
  import opened Machine
  import opened Hcs
  import opened Tarstream

  /** What `Unpack` returns: a size and whether the error is set, or a panic passed on. */
  datatype Result = Returned(size: int, failed: bool) | Panicked

  const FAIL := Returned(0, true)

  /** The layer folder, its parents newest first, and the archive. */
  datatype Job = Job(path: string, parents: seq<string>, tape: Tape)

  /** The list-building loops of driver/unpack.go:65-68 and driver/bundle.go:32-35: each folder goes to the front. */
  function FolderList(store: string, ids: seq<string>): seq<string> {
    if ids == [] then [] else [LayerPath(store, ids[|ids| - 1])] + FolderList(store, ids[..|ids| - 1])
  }

  /** IDs come oldest first, folders newest first. */
  lemma {:induction false} FolderListReverses(store: string, ids: seq<string>)
    ensures |FolderList(store, ids)| == |ids|
    ensures forall i :: 0 <= i < |ids| ==> FolderList(store, ids)[i] == LayerPath(store, ids[|ids| - 1 - i])
  {
    hide LayerPath;
    if ids != [] { FolderListReverses(store, ids[..|ids| - 1]); }
  }

  /**
   The loop from the moment the header of `es[0]` is in hand. It ends with EOF or a failure; the total is
   int64 arithmetic.
   */
  function Feed(w: World, env: Env, path: string, es: seq<Entry>, broken: bool, total: int): (World, StreamEnd, int)
    decreases |es|
  {
    if es == [] then (w, if broken then Failed else Eof, total)
    else
      var h := es[0].hdr;
      match Classify(h)
      case Whiteout =>
        var w1 := Perform(w, env, Remove(path, WhiteoutTarget(h.name)));
        if !Last(w1).ok then (w1, Failed, 0) else Feed(Perform(w1, env, Next), env, path, es[1..], broken, total)
      case HardLink =>
        var w1 := Perform(w, env, AddLink(path, FromSlash(h.name), FromSlash(h.linkname)));
        if !Last(w1).ok then (w1, Failed, 0) else Feed(Perform(w1, env, Next), env, path, es[1..], broken, total)
      case File =>
        if h.info.None? then (w, Failed, 0)
        else
          var w1 := Perform(w, env, Add(path, FromSlash(h.name), h.info.value));
          if !Last(w1).ok then (w1, Failed, 0)
          else
            var (w2, end) := Stream(w1, env, path, es, broken);
            var sum := Wrap64(total + FileSize(h));
            PlanShape(es, broken);
            if end != More then (w2, end, sum)
            else Feed(w2, env, path, StreamPlan(es, broken).rest, broken, sum)
  }

  /** Under the reader: feed the tape, then commit the size. */
  function Fill(w: World, env: Env, job: Job): (World, Result) {
    var (w1, end, total) := Feed(Perform(w, env, Next), env, job.path, job.tape.entries, job.tape.broken, 0);
    if end != Eof then (w1, FAIL)
    else
      var w2 := Perform(w1, env, WriteFile(job.path, SIZE_FILE, FormatInt(total)));
      (w2, Returned(total, !Last(w2).ok))
  }

  /** From making the folder on; the reader is reset and the writer closed whatever `Fill` returned. */
  function Build(w: World, env: Env, job: Job): (World, Result) {
    var w1 := Perform(w, env, MkdirAll(job.path));
    if !Last(w1).ok then (w1, FAIL)
    else
      var w2 := Perform(w1, env, NewWriter(job.path, job.parents));
      if !Last(w2).ok then (w2, FAIL)
      else
        var (w3, r) := Fill(Perform(w2, env, SetReader), env, job);
        (Perform(Perform(w3, env, ResetReader), env, CloseWriter(job.path)), r)
  }

  /** With the privileges held: answer from the size file, or destroy what is there and build. */
  function Elevated(w: World, env: Env, job: Job, exists': bool): (World, Result) {
    if !exists' then Build(w, env, job)
    else
      var w1 := Perform(w, env, ReadFile(job.path, SIZE_FILE));
      if !Last(w1).ok then (w1, FAIL)
      else if Last(w1).found then
        var (size, ok) := ParseInt(Last(w1).text);
        (w1, Returned(size, !ok))
      else
        var (w2, s) := DestroyRun(w1, env, job.path);
        match s
        case Nil => Build(w2, env, job)
        case Err => (w2, FAIL)
        case Panic => (w2, Panicked)
  }

  /** One run. */
  function UnpackRun(w: World, env: Env, job: Job): (World, Result) {
    var w1 := Perform(w, env, LayerExists(job.path));
    if !Last(w1).ok then (w1, FAIL)
    else
      var w2 := Perform(w1, env, EnablePrivileges);
      if !Last(w2).ok then (w2, FAIL)
      else
        var (w3, r) := Elevated(w2, env, job, Last(w1).found);
        (Perform(w3, env, DisablePrivileges), r)
  }

  // ---------------------------------------------------- the loop refines the archive's meaning

  /** The call that the entry at the head leads to is an addition under the marker's name. */
  predicate NamesMarker(es: seq<Entry>)
    requires es != []
  {
    var h := es[0].hdr;
    && (Classify(h) == HardLink || (Classify(h) == File && h.info.Some?))
    && RootFile(FromSlash(h.name)) == SIZE_FILE
  }

  /** The loop can get to such an entry: everything before it is sound. */
  predicate ReachesMarker(es: seq<Entry>) {
    es != [] && (NamesMarker(es) || (HeadSound(es) && ReachesMarker(es[Width(es)..])))
  }

  /** The loop makes feeding calls only, and without an entry of the marker's name, only quiet ones. */
  lemma {:induction false} FeedFed(w: World, env: Env, path: string, es: seq<Entry>, broken: bool, total: int, scope: Scope)
    requires scope == Feeds || (scope == Quiet && !ReachesMarker(es))
    ensures Fed(w, Feed(w, env, path, es, broken, total).0, env, path, scope)
    decreases |es|
  {
    hide Fed, Stream, StreamPlan, Perform, RootFile, HeadSound, FromSlash, WhiteoutTarget, Intact, InScope, IsWhiteout;
    FedNone(w, env, path, scope);
    if es != [] {
      var h := es[0].hdr;
      var k := Classify(h);
      if k == File && h.info.None? { return; }
      var c := match k
        case Whiteout => Remove(path, WhiteoutTarget(h.name))
        case HardLink => AddLink(path, FromSlash(h.name), FromSlash(h.linkname))
        case File => Add(path, FromSlash(h.name), h.info.value);
      var w1 := Perform(w, env, c);
      OpInScope(path, es, c, scope);
      FedOne(w, env, path, scope, c);
      if Last(w1).ok {
        if k == File {
          var (w2, end) := Stream(w1, env, path, es, broken);
          StreamFed(w1, env, path, es, broken);
          FedWiden(w1, w2, env, path, Streams, scope);
          FedThen(w, w1, w2, env, path, scope);
          PlanShape(es, broken);
          if end == More {
            StreamGoesOn(w1, env, path, es, broken);
            var rest, sum := StreamPlan(es, broken).rest, Wrap64(total + FileSize(h));
            FeedFed(w2, env, path, rest, broken, sum, scope);
            FedThen(w, w2, Feed(w2, env, path, rest, broken, sum).0, env, path, scope);
          }
        } else {
          var w2 := Perform(w1, env, Next);
          NextInScope(path, scope);
          FedOne(w1, env, path, scope, Next);
          FedThen(w, w1, w2, env, path, scope);
          SimpleSound(es);
          FeedFed(w2, env, path, es[1..], broken, total, scope);
          FedThen(w, w2, Feed(w2, env, path, es[1..], broken, total).0, env, path, scope);
        }
      }
    }
  }

  lemma OpInScope(path: string, es: seq<Entry>, c: Call, scope: Scope)
    requires es != [] && (scope == Feeds || (scope == Quiet && !NamesMarker(es)))
    requires var h := es[0].hdr;
             match Classify(h)
             case Whiteout => c == Remove(path, WhiteoutTarget(h.name))
             case HardLink => c == AddLink(path, FromSlash(h.name), FromSlash(h.linkname))
             case File => h.info.Some? && c == Add(path, FromSlash(h.name), h.info.value)
    ensures InScope(c, path, scope)
  {
    hide RootFile, FromSlash, WhiteoutTarget, IsWhiteout;
  }

  lemma NextInScope(path: string, scope: Scope)
    requires scope == Feeds || scope == Quiet
    ensures InScope(Next, path, scope)
  {
  }

  lemma SimpleSound(es: seq<Entry>)
    requires es != [] && Classify(es[0].hdr) != File
    ensures HeadSound(es) && Width(es) == 1 && HeadSize(es) == 0
  {
  }

  /** A stream call hands back another header only if the whole file was readable, and then the header after it. */
  lemma StreamGoesOn(w: World, env: Env, path: string, es: seq<Entry>, broken: bool)
    requires es != [] && Classify(es[0].hdr) == File && es[0].hdr.info.Some?
    ensures Stream(w, env, path, es, broken).1 == More ==> HeadSound(es) && StreamPlan(es, broken).rest == es[Width(es)..]
  {
    hide Drain, StreamPlan, Intact, Perform;
    StreamPlanMeans(es, broken);
  }

  /** The folder with the logical entry at the head of `es`; the boot files leave a backup too. */
  function WithHead(f: Folder, es: seq<Entry>): Folder
    requires es != []
  {
    var op, name := HeadOp(es), es[0].hdr.name;
    var g := f.(entries := f.entries + [op]);
    if op.OpAdd? && BackupOf(name).Some? then g.(files := f.files[BackupOf(name).value := op.data]) else g
  }

  /** The folder once the whole tape has gone in. */
  function Filled(f: Folder, es: seq<Entry>): Folder
    decreases |es|
  {
    if es == [] then f else Filled(WithHead(f, es), es[Width(es)..])
  }

  /** The folder without its size file. */
  function Bare(f: Folder): Folder { f.(files := f.files - {SIZE_FILE}) }

  /** From `d` to `d'` only the folder at `path` has changed, and it is `f` now, up to its size file. */
  predicate Became(d: Disk, d': Disk, path: string, f: Folder) {
    path in d'.folders && d' == Put(d, path, d'.folders[path]) && Bare(d'.folders[path]) == Bare(f)
  }

  lemma BecameThen(d: Disk, d1: Disk, d2: Disk, path: string, f: Folder, g: Folder)
    requires Became(d, d1, path, f) && Became(d1, d2, path, g)
    ensures Became(d, d2, path, g)
  {
    PutTwice(d, path, d1.folders[path], d2.folders[path]);
  }

  /** The size file makes no difference to what goes in. */
  lemma {:induction false} FilledBare(f: Folder, g: Folder, es: seq<Entry>)
    requires Bare(f) == Bare(g)
    ensures Bare(Filled(f, es)) == Bare(Filled(g, es))
    decreases |es|
  {
    hide HeadOp, Width;
    if es != [] {
      BareHead(f, g, es);
      FilledBare(WithHead(f, es), WithHead(g, es), es[Width(es)..]);
    }
  }

  lemma BareHead(f: Folder, g: Folder, es: seq<Entry>)
    requires es != [] && Bare(f) == Bare(g)
    ensures Bare(WithHead(f, es)) == Bare(WithHead(g, es))
  {
    hide HeadOp, BackupOf;
    var op, name := HeadOp(es), es[0].hdr.name;
    TableIsRight(name);
    if op.OpAdd? && BackupOf(name).Some? {
      BareFile(f.files, BackupOf(name).value, op.data);
      BareFile(g.files, BackupOf(name).value, op.data);
    }
  }

  lemma BareFile(files: map<string, string>, file: string, text: string)
    requires file != SIZE_FILE
    ensures files[file := text] - {SIZE_FILE} == (files - {SIZE_FILE})[file := text]
  {
  }

  lemma {:induction false} FilledEntries(f: Folder, es: seq<Entry>)
    ensures Filled(f, es).entries == f.entries + Logical(es)
    ensures Filled(f, es).stage == f.stage && Filled(f, es).sealed == f.sealed && Filled(f, es).parents == f.parents
    ensures SIZE_FILE in Filled(f, es).files <==> SIZE_FILE in f.files
    decreases |es|
  {
    hide HeadOp, Width;
    if es != [] {
      FilledEntries(WithHead(f, es), es[Width(es)..]);
      assert f.entries + [HeadOp(es)] + Logical(es[Width(es)..]) == f.entries + Logical(es);
    }
  }

  /** How the loop's end relates to the archive and the replies. */
  ghost predicate Refines(w: World, w': World, end: StreamEnd, sum: int, path: string, es: seq<Entry>, broken: bool, total: int)
    requires path in w.disk.folders
  {
    && Extends(w, w')
    && end != More
    && (end == Eof ==>
          && Sound(es) && !broken && !WriteFailed(w, w')
          && Became(w.disk, w'.disk, path, Filled(w.disk.folders[path], es))
          && sum == Wrap64(total + TotalSize(es)))
    && (Sound(es) && !broken && AllOk(w, w') ==> end == Eof)
  }

  /**
   The look-ahead loop and the archive: it reaches EOF only if every header and body was sound and every create,
   write, add, link and remove was accepted, and then the folder holds the logical entries, up to its size file, and
   the total is the sum of the file sizes in int64; and it does reach EOF if all that holds and no close fails.
   */
  lemma {:induction false} FeedRefines(w: World, env: Env, path: string, es: seq<Entry>, broken: bool, total: int)
    requires path in w.disk.folders && IsInt64(total)
    ensures var (w', end, sum) := Feed(w, env, path, es, broken, total);
            Refines(w, w', end, sum, path, es, broken, total)
    decreases |es|
  {
    hide Stream, StreamPlan, Perform;
    if es == [] {
      assert w.disk.folders[path := w.disk.folders[path]] == w.disk.folders;
    } else {
      match Classify(es[0].hdr)
      case Whiteout => SimpleRefines(w, env, path, es, broken, total, Remove(path, WhiteoutTarget(es[0].hdr.name)));
      case HardLink =>
        SimpleRefines(w, env, path, es, broken, total, AddLink(path, FromSlash(es[0].hdr.name), FromSlash(es[0].hdr.linkname)));
      case File => FileRefines(w, env, path, es, broken, total);
    }
  }

  lemma PutTwice(d: Disk, path: string, f: Folder, g: Folder)
    ensures Put(Put(d, path, f), path, g) == Put(d, path, g)
  {
    assert d.folders[path := f][path := g] == d.folders[path := g];
  }

  /** One logical entry accepted, then the rest. */
  lemma RefinesThen(w: World, w2: World, w': World, end: StreamEnd, sum: int, path: string, es: seq<Entry>, broken: bool, total: int)
    requires path in w.disk.folders && es != [] && HeadSound(es)
    requires Extends(w, w2) && !WriteFailed(w, w2)
    requires Became(w.disk, w2.disk, path, WithHead(w.disk.folders[path], es))
    requires Refines(w2, w', end, sum, path, es[Width(es)..], broken, Wrap64(total + HeadSize(es)))
    ensures Refines(w, w', end, sum, path, es, broken, total)
  {
    hide WithHead, HeadOp, Width, AllOk, WriteFailed, Extends, HeadSound, HeadSize, Bare;
    TraceThen(w, w2, w');
    var f, rest := w.disk.folders[path], es[Width(es)..];
    if end == Eof {
      FilledBare(w2.disk.folders[path], WithHead(f, es), rest);
      BecameThen(w.disk, w2.disk, w'.disk, path, WithHead(f, es), Filled(WithHead(f, es), rest));
    }
    WrapAdd(total + HeadSize(es), TotalSize(rest));
    assert total + HeadSize(es) + TotalSize(rest) == total + TotalSize(es);
  }

  lemma ExtendsSelf(w: World)
    ensures Extends(w, w)
  {
  }

  lemma RefinesFailed(w: World, w': World, path: string, es: seq<Entry>, broken: bool, total: int, sum: int)
    requires path in w.disk.folders && Extends(w, w') && !(Sound(es) && !broken && AllOk(w, w'))
    ensures Refines(w, w', Failed, sum, path, es, broken, total)
  {
  }

  lemma RefinesNone(w: World, path: string, total: int)
    requires path in w.disk.folders && IsInt64(total)
    ensures Refines(w, w, Eof, total, path, [], false, total)
  {
    assert w.disk.folders[path := w.disk.folders[path]] == w.disk.folders;
  }

  lemma SimpleHead(w: World, env: Env, path: string, es: seq<Entry>, c: Call)
    requires path in w.disk.folders && es != [] && Classify(es[0].hdr) != File
    requires c == if Classify(es[0].hdr) == Whiteout then Remove(path, WhiteoutTarget(es[0].hdr.name))
                  else AddLink(path, FromSlash(es[0].hdr.name), FromSlash(es[0].hdr.linkname))
    ensures var w1 := Perform(w, env, c);
            if !Last(w1).ok then Extends(w, w1) && !AllOk(w, w1)
            else
              var w2 := Perform(w1, env, Next);
              && Extends(w, w2) && !WriteFailed(w, w2)
              && Became(w.disk, w2.disk, path, WithHead(w.disk.folders[path], es))
              && Width(es) == 1 && HeadSound(es) && HeadSize(es) == 0
  {
    hide AllOk, WriteFailed, Extends, FromSlash, WhiteoutTarget, Classify, RootFile, FileStream, AltCount, HeadSize;
    SimpleSound(es);
    var w1 := Perform(w, env, c);
    TraceOne(w, env, c);
    TraceOne(w1, env, Next);
    TraceThen(w, w1, Perform(w1, env, Next));
  }

  lemma {:induction false} SimpleRefines(w: World, env: Env, path: string, es: seq<Entry>, broken: bool, total: int, c: Call)
    requires path in w.disk.folders && IsInt64(total) && es != [] && Classify(es[0].hdr) != File
    requires c == if Classify(es[0].hdr) == Whiteout then Remove(path, WhiteoutTarget(es[0].hdr.name))
                  else AddLink(path, FromSlash(es[0].hdr.name), FromSlash(es[0].hdr.linkname))
    ensures var (w', end, sum) := Feed(w, env, path, es, broken, total);
            Refines(w, w', end, sum, path, es, broken, total)
    decreases |es|, 0
  {
    hide AllOk, WriteFailed, Filled, Sound, TotalSize, WithHead, Perform, FromSlash, WhiteoutTarget, Refines, Extends;
    var w1 := Perform(w, env, c);
    SimpleHead(w, env, path, es, c);
    if Last(w1).ok {
      var w2 := Perform(w1, env, Next);
      FeedRefines(w2, env, path, es[1..], broken, total);
      var (w', end, sum) := Feed(w2, env, path, es[1..], broken, total);
      RefinesThen(w, w2, w', end, sum, path, es, broken, total);
    } else {
      RefinesFailed(w, w1, path, es, broken, total, 0);
    }
  }

  lemma FileHead(w: World, env: Env, path: string, es: seq<Entry>, broken: bool)
    requires path in w.disk.folders && es != [] && Classify(es[0].hdr) == File && es[0].hdr.info.Some?
    ensures var w1 := Perform(w, env, Add(path, FromSlash(es[0].hdr.name), es[0].hdr.info.value));
            if !Last(w1).ok then Extends(w, w1) && !AllOk(w, w1)
            else
              var (w2, end) := Stream(w1, env, path, es, broken);
              && Extends(w, w2)
              && (end == Failed ==> !HeadSound(es) || broken || !AllOk(w, w2))
              && (end != Failed ==>
                    && HeadSound(es) && !WriteFailed(w, w2)
                    && Became(w.disk, w2.disk, path, WithHead(w.disk.folders[path], es))
                    && StreamPlan(es, broken).rest == es[Width(es)..]
                    && (end == Eof ==> es[Width(es)..] == [] && !broken))
  {
    hide AllOk, WriteFailed, Stream, StreamPlan, Intact, FileStream, Flatten, Extends, Perform, FromSlash, Streamed, WithHead, Became, IsWhiteout;
    var h := es[0].hdr;
    StreamPlanMeans(es, broken);
    var c := Add(path, FromSlash(h.name), h.info.value);
    var w1 := Perform(w, env, c);
    TraceOne(w, env, c);
    AddEffect(w, env, path, FromSlash(h.name), h.info.value);
    if Last(w1).ok {
      StreamDelivers(w1, env, path, es, broken);
      var (w2, end) := Stream(w1, env, path, es, broken);
      TraceThen(w, w1, w2);
      WriteFailedNotOk(w1, w2);
      if end != Failed { AddedFile(w.disk, w1.disk, path, es); }
    }
  }

  lemma AddEffect(w: World, env: Env, path: string, name: string, info: FileInfo)
    requires path in w.disk.folders
    ensures var w1 := Perform(w, env, Add(path, name, info));
            Last(w1).ok ==>
              && Became(w.disk, w1.disk, path, w.disk.folders[path].(entries := w.disk.folders[path].entries + [OpAdd(name, info, "")]))
              && Ready(w1.disk, Sink(path, None))
  {
  }

  lemma WriteFailedNotOk(w: World, w': World)
    ensures WriteFailed(w, w') ==> !AllOk(w, w')
  {
  }

  lemma {:induction false} FeedFile(w: World, env: Env, path: string, es: seq<Entry>, broken: bool, total: int)
    requires es != [] && Classify(es[0].hdr) == File
    ensures var h := es[0].hdr;
            Feed(w, env, path, es, broken, total) ==
            if h.info.None? then (w, Failed, 0)
            else
              var w1 := Perform(w, env, Add(path, FromSlash(h.name), h.info.value));
              if !Last(w1).ok then (w1, Failed, 0)
              else
                var (w2, end) := Stream(w1, env, path, es, broken);
                var sum := Wrap64(total + FileSize(h));
                if end != More then (w2, end, sum) else Feed(w2, env, path, StreamPlan(es, broken).rest, broken, sum)
  {
    hide Stream, StreamPlan, Perform, FromSlash, Wrap64;
  }

  lemma {:induction false} FileRefines(w: World, env: Env, path: string, es: seq<Entry>, broken: bool, total: int)
    requires path in w.disk.folders && IsInt64(total) && es != [] && Classify(es[0].hdr) == File
    ensures var (w', end, sum) := Feed(w, env, path, es, broken, total);
            Refines(w, w', end, sum, path, es, broken, total)
    decreases |es|, 0
  {
    hide AllOk, WriteFailed, Filled, TotalSize, Stream, StreamPlan, Intact, WithHead, Perform, Feed, FromSlash, Wrap64, Refines, Extends;
    var h := es[0].hdr;
    PlanShape(es, broken);
    FeedFile(w, env, path, es, broken, total);
    if h.info.None? {
      ExtendsSelf(w);
      RefinesFailed(w, w, path, es, broken, total, 0);
    } else {
      FileHead(w, env, path, es, broken);
      var w1 := Perform(w, env, Add(path, FromSlash(h.name), h.info.value));
      if !Last(w1).ok {
        RefinesFailed(w, w1, path, es, broken, total, 0);
      } else {
        var (w2, end) := Stream(w1, env, path, es, broken);
        var rest, sum := es[Width(es)..], Wrap64(total + FileSize(h));
        if end == More {
          FeedRefines(w2, env, path, rest, broken, sum);
          var (w', e', s') := Feed(w2, env, path, rest, broken, sum);
          RefinesThen(w, w2, w', e', s', path, es, broken, total);
        } else if end == Eof {
          RefinesNone(w2, path, sum);
          RefinesThen(w, w2, w2, Eof, sum, path, es, broken, total);
        } else {
          RefinesFailed(w, w2, path, es, broken, total, sum);
        }
      }
    }
  }

  lemma AddedFile(d: Disk, d1: Disk, path: string, es: seq<Entry>)
    requires path in d.folders && es != [] && Classify(es[0].hdr) == File && es[0].hdr.info.Some?
    requires Became(d, d1, path, d.folders[path].(entries := d.folders[path].entries
                                                               + [OpAdd(FromSlash(es[0].hdr.name), es[0].hdr.info.value, "")]))
    ensures Became(d, Streamed(d1, path, es[0].hdr.name, FileStream(es[..Width(es)])), path, WithHead(d.folders[path], es))
  {
    hide FileStream, Width, FromSlash, BackupOf;
    var f, data, name := d.folders[path], FileStream(es[..Width(es)]), es[0].hdr.name;
    assert "" + data == data;
    var e1 := d1.folders[path].entries;
    assert e1[..|e1| - 1] == f.entries;
    var d2 := Streamed(d1, path, name, data);
    TableIsRight(name);
    if BackupOf(name).Some? {
      BareFile(d1.folders[path].files, BackupOf(name).value, data);
      BareFile(f.files, BackupOf(name).value, data);
    }
    PutTwice(d, path, d1.folders[path], d2.folders[path]);
  }

  // ---------------------------------------------------- which operations are issued, failures included

  predicate IsOp(c: Call) { c.Add? || c.AddLink? || c.Remove? }

  /** The operations on the layer writer that a trace holds. */
  function Issued(t: seq<Event>): seq<Call> {
    if t == [] then []
    else Issued(t[..|t| - 1]) + if IsOp(t[|t| - 1].call) then [t[|t| - 1].call] else []
  }

  function HeadCall(path: string, es: seq<Entry>): Call
    requires es != []
  {
    match HeadOp(es)
    case OpAdd(n, i, _) => Add(path, n, i)
    case OpLink(n, t) => AddLink(path, n, t)
    case OpRemove(n) => Remove(path, n)
  }

  /** One operation per logical entry, in order. */
  function Expected(path: string, es: seq<Entry>): seq<Call> {
    if es == [] then [] else [HeadCall(path, es)] + Expected(path, es[Width(es)..])
  }

  lemma IssuedOne(w: World, env: Env, c: Call)
    ensures Issued(Perform(w, env, c).trace) == Issued(w.trace) + if IsOp(c) then [c] else []
  {
    var t := Perform(w, env, c).trace;
    assert t[..|t| - 1] == w.trace;
  }

  lemma {:induction false} IssuedStream(w: World, env: Env, path: string, cs: seq<Call>)
    requires AllInScope(cs, path, Streams)
    ensures Issued(RunCalls(w, env, cs).trace) == Issued(w.trace)
  {
    if cs != [] {
      var init := cs[..|cs| - 1];
      assert AllInScope(init, path, Streams);
      IssuedStream(w, env, path, init);
      IssuedOne(RunCalls(w, env, init), env, cs[|cs| - 1]);
      assert InScope(cs[|cs| - 1], path, Streams);
    }
  }

  /** `after` continues `before` with expected calls, in order and from the first; with all of them if `done`. */
  predicate InOrder(before: seq<Call>, after: seq<Call>, expected: seq<Call>, done: bool) {
    && before <= after <= before + expected
    && (done ==> after == before + expected)
  }

  lemma InOrderThen(before: seq<Call>, c: Call, after: seq<Call>, rest: seq<Call>, done: bool)
    requires InOrder(before + [c], after, rest, done)
    ensures InOrder(before, after, [c] + rest, done)
  {
    assert before + [c] + rest == before + ([c] + rest);
  }

  /**
   In every run, failed or not, the operations issued are the expected ones in order, none skipped and none
   repeated, up to the point where the run stopped; a run that reaches EOF issued all of them.
   */
  lemma {:induction false} FeedIssues(w: World, env: Env, path: string, es: seq<Entry>, broken: bool, total: int)
    ensures var (w', end, _) := Feed(w, env, path, es, broken, total);
            InOrder(Issued(w.trace), Issued(w'.trace), Expected(path, es), end == Eof)
    decreases |es|
  {
    hide Stream, StreamPlan, Perform, Issued, Width, InOrder, Classify, HeadCall, FromSlash, WhiteoutTarget, HeadOp;
    if es == [] || (Classify(es[0].hdr) == File && es[0].hdr.info.None?) {
      NothingIssued(Issued(w.trace), Expected(path, es), es == [] && !broken);
    } else {
      var c, rest := HeadCall(path, es), es[Width(es)..];
      HeadCallIs(path, es);
      IssuedOne(w, env, c);
      NothingIssued(Issued(w.trace) + [c], Expected(path, rest), rest == []);
      if Last(Perform(w, env, c)).ok {
        if Classify(es[0].hdr) == File {
          StreamIssues(Perform(w, env, c), env, path, es, broken);
          PlanShape(es, broken);
          var (w2, end) := Stream(Perform(w, env, c), env, path, es, broken);
          if end == More {
            FeedIssues(w2, env, path, rest, broken, Wrap64(total + FileSize(es[0].hdr)));
          }
        } else {
          IssuedOne(Perform(w, env, c), env, Next);
          assert Issued(w.trace) + [c] + [] == Issued(w.trace) + [c];
          FeedIssues(Perform(Perform(w, env, c), env, Next), env, path, rest, broken, total);
        }
      }
      var (w', end, _) := Feed(w, env, path, es, broken, total);
      assert InOrder(Issued(w.trace) + [c], Issued(w'.trace), Expected(path, rest), end == Eof);
      InOrderThen(Issued(w.trace), c, Issued(w'.trace), Expected(path, rest), end == Eof);
    }
  }

  lemma HeadCallIs(path: string, es: seq<Entry>)
    requires es != [] && (Classify(es[0].hdr) == File ==> es[0].hdr.info.Some?)
    ensures var h := es[0].hdr;
            HeadCall(path, es) == match Classify(h)
              case Whiteout => Remove(path, WhiteoutTarget(h.name))
              case HardLink => AddLink(path, FromSlash(h.name), FromSlash(h.linkname))
              case File => Add(path, FromSlash(h.name), h.info.value)
    ensures IsOp(HeadCall(path, es))
    ensures Classify(es[0].hdr) != File ==> Width(es) == 1
  {
  }

  lemma NothingIssued(before: seq<Call>, expected: seq<Call>, done: bool)
    requires done ==> expected == []
    ensures InOrder(before, before, expected, done) && InOrder(before, before, expected, false)
  {
  }

  lemma StreamIssues(w: World, env: Env, path: string, es: seq<Entry>, broken: bool)
    requires es != [] && Classify(es[0].hdr) == File
    ensures var (w', end) := Stream(w, env, path, es, broken);
            && Issued(w'.trace) == Issued(w.trace)
            && (end == More ==> StreamPlan(es, broken).rest == es[Width(es)..])
            && (end == Eof ==> es[Width(es)..] == [])
  {
    hide Drain, StreamPlan, Intact, Issued;
    StreamFed(w, env, path, es, broken);
    var w' := Stream(w, env, path, es, broken).0;
    var cs :| AllInScope(cs, path, Streams) && w' == RunCalls(w, env, cs);
    IssuedStream(w, env, path, cs);
    StreamPlanMeans(es, broken);
  }

  /** A backup's close failed with one of the `n` operations that come after `w` still to be issued. */
  predicate CutShort(w: World, w': World, n: nat) {
    exists i :: |w.trace| <= i < |w'.trace| && FailedClose(w'.trace[i]) && |Issued(w'.trace[..i])| < |Issued(w.trace)| + n
  }

  predicate FailedClose(e: Event) { IsClose(e.call) && !e.ok }

  lemma {:induction false} IssuedGrows(t: seq<Event>, i: nat)
    requires i <= |t|
    ensures |Issued(t[..i])| <= |Issued(t)|
  {
    if i < |t| {
      assert t[..|t| - 1][..i] == t[..i];
      IssuedGrows(t[..|t| - 1], i);
    } else {
      assert t[..i] == t;
    }
  }

  /** An operation taken without failures moves the question to what comes after it. */
  lemma CutShift(w: World, w1: World, w': World, n: nat)
    requires Extends(w, w1) && Extends(w1, w') && AllOk(w, w1) && |Issued(w1.trace)| == |Issued(w.trace)| + 1 && n >= 1
    ensures CutShort(w, w', n) <==> CutShort(w1, w', n - 1)
  {
    hide Issued, IsClose;
    assert forall i :: 0 <= i < |w1.trace| ==> w1.trace[i] == w'.trace[..|w1.trace|][i] == w'.trace[i];
  }

  /** Nothing is cut short once the last operation has been issued. */
  lemma NotCutShort(w: World, w1: World, w': World)
    requires Extends(w, w1) && Extends(w1, w') && AllOk(w, w1) && |Issued(w1.trace)| == |Issued(w.trace)| + 1
    ensures !CutShort(w, w', 1)
  {
    hide Issued, IsClose;
    CutShift(w, w1, w', 1);
    forall i | |w1.trace| <= i < |w'.trace|
      ensures |Issued(w'.trace[..i])| >= |Issued(w1.trace)|
    {
      assert w'.trace[..i][..|w1.trace|] == w1.trace;
      IssuedGrows(w'.trace[..i], |w1.trace|);
    }
  }

  /** A stream call in which only a close failed, with more to come, does cut the loop short. */
  lemma CutByClose(w: World, w1: World, w2: World, n: nat)
    requires Extends(w, w1) && Extends(w1, w2) && AllOk(w, w1) && |Issued(w1.trace)| == |Issued(w.trace)| + 1 && n >= 2
    requires Issued(w2.trace) == Issued(w1.trace) && !AllOk(w1, w2) && !WriteFailed(w1, w2)
    ensures CutShort(w, w2, n)
  {
    hide Issued, IsClose;
    CutShift(w, w1, w2, n);
    var i :| |w1.trace| <= i < |w2.trace| && !w2.trace[i].ok;
    assert FailedClose(w2.trace[i]);
    IssuedGrows(w2.trace, i);
  }

  /** With a sound archive and nothing refused, the loop reaches EOF unless it is cut short. */
  lemma {:induction false} FeedStops(w: World, env: Env, path: string, es: seq<Entry>, total: int)
    requires path in w.disk.folders && IsInt64(total) && Sound(es)
    requires !WriteFailed(w, Feed(w, env, path, es, false, total).0)
    ensures var (w', end, _) := Feed(w, env, path, es, false, total);
            end == Eof <==> !CutShort(w, w', |Expected(path, es)|)
    decreases |es|
  {
    hide Perform, Issued, Feed, WriteFailed, AllOk, Stream, StreamPlan, FromSlash, WhiteoutTarget, Intact, WithHead, HeadCall, Wrap64, CutShort, Extends, Bare, Put, FileStream, IsWhiteout;
    if es == [] {
      FeedNothing(w, env, path, total);
      NothingCut(w);
    } else {
      var c, rest := HeadCall(path, es), es[Width(es)..];
      HeadCallIs(path, es);
      var w1 := Perform(w, env, c);
      IssuedOne(w, env, c);
      TraceOne(w, env, c);
      if Classify(es[0].hdr) == File {
        FeedFile(w, env, path, es, false, total);
        assert Last(w1).ok;
        FileStops(w, w1, env, path, es, total);
      } else {
        FeedSimple(w, env, path, es, false, total, c);
        SimpleHead(w, env, path, es, c);
        assert Last(w1).ok;
        var w2 := Perform(w1, env, Next);
        IssuedOne(w1, env, Next);
        TraceOne(w1, env, Next);
        ReplyOf(w1, env, Next);
        TraceThen(w, w1, w2);
        var w' := Feed(w2, env, path, rest, false, total).0;
        FeedFed(w2, env, path, rest, false, total, Feeds);
        FedTrace(w2, w', env, path, Feeds);
        TraceThen(w, w2, w');
        FeedStops(w2, env, path, rest, total);
        CutShift(w, w2, w', |Expected(path, es)|);
      }
    }
  }

  lemma NothingCut(w: World)
    ensures !CutShort(w, w, 0)
  {
  }

  /** Where the stream of a sound file leaves the loop. */
  lemma FileStreamed(w: World, w1: World, env: Env, path: string, es: seq<Entry>)
    requires path in w.disk.folders && es != [] && HeadSound(es) && Classify(es[0].hdr) == File
    requires w1 == Perform(w, env, Add(path, FromSlash(es[0].hdr.name), es[0].hdr.info.value)) && Last(w1).ok
    ensures var (w2, end) := Stream(w1, env, path, es, false);
            && Extends(w1, w2) && Issued(w2.trace) == Issued(w1.trace)
            && (end == More ==> path in w2.disk.folders && StreamPlan(es, false).rest == es[Width(es)..] != [])
            && (!WriteFailed(w1, w2) ==> end == if es[Width(es)..] == [] then Eof else if AllOk(w1, w2) then More else Failed)
  {
    hide Perform, Issued, WriteFailed, AllOk, Stream, StreamPlan, FromSlash, Intact, WithHead, Extends, Bare, Put;
    FileHead(w, env, path, es, false);
    AddEffect(w, env, path, FromSlash(es[0].hdr.name), es[0].hdr.info.value);
    StreamIssues(w1, env, path, es, false);
    StreamStops(w1, env, path, es);
    if Stream(w1, env, path, es, false).1 == More { PlanGoesOn(w1, env, path, es); }
  }

  lemma PlanGoesOn(w: World, env: Env, path: string, es: seq<Entry>)
    requires es != [] && Stream(w, env, path, es, false).1 == More
    ensures StreamPlan(es, false).rest != []
  {
    hide Drain, StreamPlan, Perform;
    PlanShape(es, false);
  }

  lemma {:induction false} FileStops(w: World, w1: World, env: Env, path: string, es: seq<Entry>, total: int)
    requires path in w.disk.folders && IsInt64(total) && Sound(es) && es != [] && Classify(es[0].hdr) == File
    requires w1 == Perform(w, env, Add(path, FromSlash(es[0].hdr.name), es[0].hdr.info.value)) && Last(w1).ok
    requires Extends(w, w1) && AllOk(w, w1) && |Issued(w1.trace)| == |Issued(w.trace)| + 1
    requires !WriteFailed(w, Feed(w, env, path, es, false, total).0)
    ensures var (w', end, _) := Feed(w, env, path, es, false, total);
            end == Eof <==> !CutShort(w, w', |Expected(path, es)|)
    decreases |es|, 0
  {
    hide Perform, Issued, Feed, WriteFailed, AllOk, Stream, StreamPlan, FromSlash, Intact, WithHead, HeadCall, Wrap64, CutShort, Extends, Classify;
    var rest, sum := es[Width(es)..], Wrap64(total + FileSize(es[0].hdr));
    FeedFile(w, env, path, es, false, total);
    FileStreamed(w, w1, env, path, es);
    var (w2, end) := Stream(w1, env, path, es, false);
    TraceThen(w, w1, w2);
    if rest == [] {
      NotCutShort(w, w1, w2);
    } else if end == More {
      var w' := Feed(w2, env, path, rest, false, sum).0;
      FeedFed(w2, env, path, rest, false, sum, Feeds);
      FedTrace(w2, w', env, path, Feeds);
      TraceThen(w, w2, w');
      FeedStops(w2, env, path, rest, sum);
      CutShift(w, w2, w', |Expected(path, es)|);
    } else {
      assert |Expected(path, rest)| >= 1;
      CutByClose(w, w1, w2, |Expected(path, es)|);
    }
  }

  lemma FeedNothing(w: World, env: Env, path: string, total: int)
    ensures Feed(w, env, path, [], false, total) == (w, Eof, total)
  {
  }

  lemma {:induction false} FeedSimple(w: World, env: Env, path: string, es: seq<Entry>, broken: bool, total: int, c: Call)
    requires es != [] && Classify(es[0].hdr) != File && c == HeadCall(path, es)
    ensures Feed(w, env, path, es, broken, total) ==
            var w1 := Perform(w, env, c);
            if !Last(w1).ok then (w1, Failed, 0) else Feed(Perform(w1, env, Next), env, path, es[Width(es)..], broken, total)
  {
    hide Perform, FromSlash, WhiteoutTarget;
  }

  /** How a stream call whose writes were all accepted ends: a failed close counts only if entries follow. */
  lemma StreamStops(w: World, env: Env, path: string, es: seq<Entry>)
    requires es != [] && Intact(es) && Classify(es[0].hdr) == File && Ready(w.disk, Sink(path, None))
    ensures var (w', end) := Stream(w, env, path, es, false);
            && Extends(w, w')
            && (!WriteFailed(w, w') ==> end == if es[Width(es)..] == [] then Eof else if AllOk(w, w') then More else Failed)
  {
    hide Stream, StreamPlan, Intact, WriteFailed, AllOk, FileStream, Flatten;
    StreamDelivers(w, env, path, es, false);
    StreamPlanMeans(es, false);
  }

  /**
   Exactly when the loop reaches EOF: the archive is sound to its end, no create, write, add, link or remove was
   refused, and no backup's close failed with another entry behind it.
   */
  lemma FeedExact(w: World, env: Env, path: string, es: seq<Entry>, broken: bool, total: int)
    requires path in w.disk.folders && IsInt64(total)
    ensures var (w', end, _) := Feed(w, env, path, es, broken, total);
            end == Eof <==> Sound(es) && !broken && !WriteFailed(w, w') && !CutShort(w, w', |Expected(path, es)|)
  {
    hide Feed, Sound, WriteFailed, Expected, Filled, CutShort;
    FeedRefines(w, env, path, es, broken, total);
    var w' := Feed(w, env, path, es, broken, total).0;
    if Sound(es) && !broken && !WriteFailed(w, w') {
      FeedStops(w, env, path, es, total);
    }
  }

  // ---------------------------------------------------- backups in the finished folder

  /** The stream of the last file of that name in the archive. */
  function LastStream(es: seq<Entry>, name: string): Option<string>
    decreases |es|
  {
    if es == [] then None
    else
      var later := LastStream(es[Width(es)..], name);
      if later.Some? then later
      else if Classify(es[0].hdr) == File && es[0].hdr.name == name then Some(FileStream(es[..Width(es)]))
      else None
  }

  /** The file holds the stream of the last entry of that name, or is as it was if there is none. */
  predicate Holds(f: Folder, g: Folder, file: string, stream: Option<string>) {
    if stream.Some? then file in g.files && g.files[file] == stream.value
    else (file in g.files <==> file in f.files) && (file in f.files ==> g.files[file] == f.files[file])
  }

  /** Each boot file's backup holds what the layer writer was given for it last, and no other file is touched. */
  lemma {:induction false} BackupsMatch(f: Folder, es: seq<Entry>, name: string)
    requires BackupOf(name).Some?
    ensures Holds(f, Filled(f, es), BackupOf(name).value, LastStream(es, name))
    decreases |es|
  {
    hide FileStream, Width, BackupOf;
    if es != [] {
      var head := es[0].hdr.name;
      if BackupOf(head) == BackupOf(name) { BackupsDiffer(head, name); }
      BackupsMatch(WithHead(f, es), es[Width(es)..], name);
    }
  }

  lemma {:induction false} NoOtherBackup(f: Folder, es: seq<Entry>, file: string)
    requires forall name :: BackupOf(name) != Some(file)
    ensures Holds(f, Filled(f, es), file, None)
    decreases |es|
  {
    hide HeadOp, Width, BackupOf;
    if es != [] { NoOtherBackup(WithHead(f, es), es[Width(es)..], file); }
  }

  /** The four backups by name. */
  lemma BackupsNamed(f: Folder, es: seq<Entry>)
    ensures var g := Filled(f, es);
            && Holds(f, g, "bcd.bak", LastStream(es, "UtilityVM/Files/EFI/Microsoft/Boot/BCD"))
            && Holds(f, g, "bcd.log.bak", LastStream(es, "UtilityVM/Files/EFI/Microsoft/Boot/BCD.LOG"))
            && Holds(f, g, "bcd.log1.bak", LastStream(es, "UtilityVM/Files/EFI/Microsoft/Boot/BCD.LOG1"))
            && Holds(f, g, "bcd.log2.bak", LastStream(es, "UtilityVM/Files/EFI/Microsoft/Boot/BCD.LOG2"))
            && forall file :: file !in {"bcd.bak", "bcd.log.bak", "bcd.log1.bak", "bcd.log2.bak"} ==> Holds(f, g, file, None)
  {
    hide Filled, LastStream, Holds;
    BackupsMatch(f, es, "UtilityVM/Files/EFI/Microsoft/Boot/BCD");
    BackupsMatch(f, es, "UtilityVM/Files/EFI/Microsoft/Boot/BCD.LOG");
    BackupsMatch(f, es, "UtilityVM/Files/EFI/Microsoft/Boot/BCD.LOG1");
    BackupsMatch(f, es, "UtilityVM/Files/EFI/Microsoft/Boot/BCD.LOG2");
    forall file | file !in {"bcd.bak", "bcd.log.bak", "bcd.log1.bak", "bcd.log2.bak"}
      ensures Holds(f, Filled(f, es), file, None)
    {
      NoOtherBackup(f, es, file);
    }
  }
}
