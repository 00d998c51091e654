/**
 tarstream/tarstream.go: one buffered writer, reused for every entry, feeds the layer writer and, for four
 boot files, a backup copy as well.
 */
module Tarstream {
  import opened GoBase
  import opened Tar
  import opened Machine

  const MUTATED: map<string, string> := map[
    "UtilityVM/Files/EFI/Microsoft/Boot/BCD" := "bcd.bak",
    "UtilityVM/Files/EFI/Microsoft/Boot/BCD.LOG" := "bcd.log.bak",
    "UtilityVM/Files/EFI/Microsoft/Boot/BCD.LOG1" := "bcd.log1.bak",
    "UtilityVM/Files/EFI/Microsoft/Boot/BCD.LOG2" := "bcd.log2.bak"]

  /** Under which name a copy of an entry is to be kept beside the layer, if at all. */
  function BackupOf(name: string): Option<string> {
    if name == "UtilityVM/Files/EFI/Microsoft/Boot/BCD" then Some("bcd.bak")
    else if name == "UtilityVM/Files/EFI/Microsoft/Boot/BCD.LOG" then Some("bcd.log.bak")
    else if name == "UtilityVM/Files/EFI/Microsoft/Boot/BCD.LOG1" then Some("bcd.log1.bak")
    else if name == "UtilityVM/Files/EFI/Microsoft/Boot/BCD.LOG2" then Some("bcd.log2.bak")
    else None
  }

  /** The table holds exactly the four boot files. */
  lemma TableIsRight(name: string)
    ensures name in MUTATED <==> BackupOf(name).Some?
    ensures name in MUTATED ==> MUTATED[name] == BackupOf(name).value
    ensures BackupOf(name) != Some(SIZE_FILE)
  {
  }

  lemma BackupsDiffer(a: string, b: string)
    requires BackupOf(a).Some? && BackupOf(a) == BackupOf(b)
    ensures a == b
  {
  }

  /** The buffer of `bufio.NewWriter`. */
  const CAPACITY: nat := 4096

  /** Where the buffer drains: the layer writer of `path`, and a backup beside it. */
  datatype Sink = Sink(path: string, backup: Option<string>)

  /** Bytes not yet passed on, and the sticky error. */
  datatype Buf = Buf(pending: string, err: bool)

  const EMPTY_BUFFER := Buf("", false)

  /** One write to the sink; `io.MultiWriter` stops at the first failure. */
  function Deliver(w: World, env: Env, k: Sink, data: string): (World, bool) {
    var w1 := Perform(w, env, Write(k.path, data));
    if k.backup.None? || !Last(w1).ok then (w1, Last(w1).ok)
    else
      var w2 := Perform(w1, env, WriteBackup(k.path, k.backup.value, data));
      (w2, Last(w2).ok)
  }

  /** `bufio.Writer.Flush`; after a failure only `Reset` brings the buffer back, so what stays pending is immaterial. */
  function Flush(w: World, env: Env, k: Sink, b: Buf): (World, Buf) {
    if b.err || b.pending == "" then (w, b)
    else
      var (w1, ok) := Deliver(w, env, k, b.pending);
      (w1, if ok then EMPTY_BUFFER else b.(err := true))
  }

  /** `bufio.Writer.Write`. */
  function Push(w: World, env: Env, k: Sink, b: Buf, p: string): (r: (World, Buf))
    requires |b.pending| <= CAPACITY
    ensures |r.1.pending| <= CAPACITY
    decreases |p|, |b.pending|
  {
    var room := CAPACITY - |b.pending|;
    if b.err then (w, b)
    else if |p| <= room then (w, b.(pending := b.pending + p))
    else if b.pending == "" then
      var (w1, ok) := Deliver(w, env, k, p);
      (w1, b.(err := !ok))
    else
      var (w1, b1) := Flush(w, env, k, b.(pending := b.pending + p[..room]));
      if b1.err then (w1, b1) else Push(w1, env, k, b1, p[room..])
  }

  function PushAll(w: World, env: Env, k: Sink, b: Buf, chunks: seq<string>): (World, Buf)
    requires |b.pending| <= CAPACITY
    decreases |chunks|
  {
    if chunks == [] || b.err then (w, b)
    else
      var (w1, b1) := Push(w, env, k, b, chunks[0]);
      PushAll(w1, env, k, b1, chunks[1..])
  }

  /** A close error counts only if there is no result yet; EOF is a result. */
  function Merge(end: StreamEnd, closed: bool): StreamEnd { if end == More && !closed then Failed else end }

  /** `WriteBackupStreamFromTarFile` for the entry at the head of `es`. */
  function Stream(w: World, env: Env, path: string, es: seq<Entry>, broken: bool): (World, StreamEnd)
    requires es != []
  {
    var plan := StreamPlan(es, broken);
    if es[0].hdr.name in MUTATED then
      var file := MUTATED[es[0].hdr.name];
      var w0 := Perform(w, env, CreateBackup(path, file));
      if !Last(w0).ok then (w0, Failed)
      else
        var (w1, b) := Drain(w0, env, Sink(path, Some(file)), plan.chunks);
        var w2 := Perform(w1, env, CloseBackupWriter(path, file));
        var w3 := Perform(w2, env, CloseBackupFile(path, file));
        (w3, Merge(if b.err then Failed else plan.end, Last(w2).ok && Last(w3).ok))
    else
      var (w1, b) := Drain(w, env, Sink(path, None), plan.chunks);
      (w1, if b.err then Failed else plan.end)
  }

  /** Reset, write everything, flush. */
  function Drain(w: World, env: Env, k: Sink, chunks: seq<string>): (World, Buf) {
    var (w1, b) := PushAll(w, env, k, EMPTY_BUFFER, chunks);
    Flush(w1, env, k, b)
  }

  // ---------------------------------------------------- what is delivered

  /** The file being written is the last one added, and its backup is open. */
  predicate Ready(d: Disk, k: Sink) {
    && k.path in d.folders
    && d.folders[k.path].entries != []
    && d.folders[k.path].entries[|d.folders[k.path].entries| - 1].OpAdd?
    && (k.backup.Some? ==> HasFile(d, k.path, k.backup.value))
  }

  /** The disk once both ends of the sink have received `data`. */
  function After(d: Disk, k: Sink, data: string): Disk
    requires Ready(d, k)
  {
    var f := d.folders[k.path];
    var g := f.(entries := Extend(f.entries, data));
    Put(d, k.path,
        if k.backup.None? then g else g.(files := f.files[k.backup.value := f.files[k.backup.value] + data]))
  }

  lemma ExtendTwice(entries: seq<Op>, a: string, b: string)
    ensures Extend(Extend(entries, a), b) == Extend(entries, a + b)
  {
    if entries != [] && entries[|entries| - 1].OpAdd? {
      var last := entries[|entries| - 1];
      assert last.data + a + b == last.data + (a + b);
      assert Extend(entries, a)[..|entries| - 1] == entries[..|entries| - 1];
    }
  }

  lemma AfterTwice(d: Disk, k: Sink, a: string, b: string)
    requires Ready(d, k)
    ensures Ready(After(d, k, a), k)
    ensures After(After(d, k, a), k, b) == After(d, k, a + b)
  {
    var f := d.folders[k.path];
    ExtendTwice(f.entries, a, b);
    if k.backup.Some? {
      var old' := f.files[k.backup.value];
      assert old' + a + b == old' + (a + b);
      assert f.files[k.backup.value := old' + a][k.backup.value := old' + a + b] == f.files[k.backup.value := old' + (a + b)];
    }
    assert After(After(d, k, a), k, b).folders == After(d, k, a + b).folders;
  }

  lemma AfterNothing(d: Disk, k: Sink)
    requires Ready(d, k)
    ensures After(d, k, "") == d
  {
    var f := d.folders[k.path];
    var last := f.entries[|f.entries| - 1];
    assert last.(data := last.data + "") == last;
    assert Extend(f.entries, "") == f.entries;
    if k.backup.Some? {
      assert f.files[k.backup.value] + "" == f.files[k.backup.value];
      assert f.files[k.backup.value := f.files[k.backup.value]] == f.files;
    }
    assert After(d, k, "").folders == d.folders;
  }

  /** `x` went out of the buffer to the sink, and a failure happened exactly if the buffer says so. */
  ghost predicate Moved(w: World, w': World, k: Sink, x: string, err: bool) {
    && Extends(w, w')
    && Ready(w.disk, k)
    && (AllOk(w, w') <==> !err)
    && (!err ==> w'.disk == After(w.disk, k, x))
  }

  lemma DeliverMoves(w: World, env: Env, k: Sink, data: string)
    requires Ready(w.disk, k)
    ensures var (w', ok) := Deliver(w, env, k, data); Moved(w, w', k, data, !ok)
  {
    var w1 := Perform(w, env, Write(k.path, data));
    if k.backup.Some? && Last(w1).ok {
      var w2 := Perform(w1, env, WriteBackup(k.path, k.backup.value, data));
      assert w2.trace[..|w.trace|] == w.trace;
      assert w2.trace[|w.trace|] == Last(w1) && w2.trace[|w.trace| + 1] == Last(w2);
      if Last(w2).ok {
        assert w2.disk.folders == After(w.disk, k, data).folders;
      }
    } else {
      assert w1.trace[..|w.trace|] == w.trace && w1.trace[|w.trace|] == Last(w1);
    }
  }

  lemma MovedTwice(w: World, w1: World, w2: World, k: Sink, x: string, y: string, err: bool)
    requires Moved(w, w1, k, x, false) && Moved(w1, w2, k, y, err)
    ensures Moved(w, w2, k, x + y, err)
  {
    AfterTwice(w.disk, k, x, y);
    assert w2.trace[..|w.trace|] == w2.trace[..|w1.trace|][..|w.trace|];
    assert forall i :: |w.trace| <= i < |w1.trace| ==> w2.trace[i] == w2.trace[..|w1.trace|][i];
  }

  lemma MovedNone(w: World, k: Sink)
    requires Ready(w.disk, k)
    ensures Moved(w, w, k, "", false)
  {
    AfterNothing(w.disk, k);
  }

  lemma MovedErr(w: World, w1: World, k: Sink, x: string)
    requires Moved(w, w1, k, "", true)
    ensures Moved(w, w1, k, x, true)
  {
  }

  lemma MovedReady(w: World, w1: World, k: Sink, x: string)
    requires Moved(w, w1, k, x, false)
    ensures Ready(w1.disk, k)
  {
    AfterTwice(w.disk, k, x, "");
  }

  lemma FlushMoves(w: World, env: Env, k: Sink, b: Buf)
    requires Ready(w.disk, k) && !b.err
    ensures var (w', b') := Flush(w, env, k, b);
            Moved(w, w', k, b.pending, b'.err) && (!b'.err ==> b'.pending == "")
  {
    if b.pending == "" {
      AfterNothing(w.disk, k);
    } else {
      DeliverMoves(w, env, k, b.pending);
    }
  }

  /**
   Nothing is lost, repeated or reordered: of `all` that came in, the part not pending any more went out. After
   a failure nothing is said about how far it got.
   */
  ghost predicate Conserved(w: World, w': World, k: Sink, all: string, b: Buf) {
    if b.err then Moved(w, w', k, "", true)
    else
      && |b.pending| <= |all| && all[|all| - |b.pending|..] == b.pending
      && Moved(w, w', k, all[..|all| - |b.pending|], false)
  }

  lemma ConservedThen(w: World, w1: World, w2: World, k: Sink, x: string, all: string, b: Buf)
    requires Moved(w, w1, k, x, false) && Conserved(w1, w2, k, all, b)
    ensures Conserved(w, w2, k, x + all, b)
  {
    var sent := if b.err then "" else all[..|all| - |b.pending|];
    MovedTwice(w, w1, w2, k, x, sent, b.err);
    if !b.err {
      var n := |x + all| - |b.pending|;
      assert (x + all)[..n] == x + sent;
      assert (x + all)[n..] == all[|all| - |b.pending|..];
    }
  }

  lemma {:induction false} PushConserves(w: World, env: Env, k: Sink, b: Buf, p: string)
    requires |b.pending| <= CAPACITY && Ready(w.disk, k) && !b.err
    ensures var (w', b') := Push(w, env, k, b, p); Conserved(w, w', k, b.pending + p, b')
    decreases |p|, |b.pending|
  {
    hide Deliver, After;
    var room := CAPACITY - |b.pending|;
    if |p| <= room {
      AfterNothing(w.disk, k);
    } else if b.pending == "" {
      DeliverMoves(w, env, k, p);
      assert (b.pending + p)[..|p|] == p;
    } else {
      var b0 := b.(pending := b.pending + p[..room]);
      FlushMoves(w, env, k, b0);
      var (w1, b1) := Flush(w, env, k, b0);
      if !b1.err {
        AfterTwice(w.disk, k, b0.pending, "");
        PushConserves(w1, env, k, b1, p[room..]);
        var (w2, b2) := Push(w1, env, k, b1, p[room..]);
        ConservedThen(w, w1, w2, k, b0.pending, b1.pending + p[room..], b2);
        assert b0.pending + (b1.pending + p[room..]) == b.pending + p;
      }
    }
  }

  lemma {:induction false} PushAllConserves(w: World, env: Env, k: Sink, b: Buf, chunks: seq<string>)
    requires |b.pending| <= CAPACITY && Ready(w.disk, k) && !b.err
    ensures var (w', b') := PushAll(w, env, k, b, chunks); Conserved(w, w', k, b.pending + Flatten(chunks), b')
    decreases |chunks|
  {
    hide Push, Moved, Ready;
    if chunks == [] {
      MovedNone(w, k);
      assert b.pending + Flatten(chunks) == b.pending;
    } else {
      PushConserves(w, env, k, b, chunks[0]);
      var (w1, b1) := Push(w, env, k, b, chunks[0]);
      if !b1.err {
        var all := b.pending + chunks[0];
        var sent := all[..|all| - |b1.pending|];
        MovedReady(w, w1, k, sent);
        PushAllConserves(w1, env, k, b1, chunks[1..]);
        var (w2, b2) := PushAll(w1, env, k, b1, chunks[1..]);
        ConservedThen(w, w1, w2, k, sent, b1.pending + Flatten(chunks[1..]), b2);
        assert sent + (b1.pending + Flatten(chunks[1..])) == all + Flatten(chunks[1..]) == b.pending + Flatten(chunks);
      }
    }
  }

  /** Reset, write, flush: if nothing failed, exactly these bytes arrived, at both ends. */
  lemma DrainDelivers(w: World, env: Env, k: Sink, chunks: seq<string>)
    requires Ready(w.disk, k)
    ensures var (w', b) := Drain(w, env, k, chunks); Moved(w, w', k, Flatten(chunks), b.err)
  {
    hide Push, PushAll, Deliver, Moved, Ready;
    PushAllConserves(w, env, k, EMPTY_BUFFER, chunks);
    var (w1, b) := PushAll(w, env, k, EMPTY_BUFFER, chunks);
    var all := "" + Flatten(chunks);
    assert all == Flatten(chunks);
    if !b.err {
      var sent := all[..|all| - |b.pending|];
      MovedReady(w, w1, k, sent);
      FlushMoves(w1, env, k, b);
      var (w2, b2) := Flush(w1, env, k, b);
      MovedTwice(w, w1, w2, k, sent, b.pending, b2.err);
      assert sent + b.pending == all;
    } else {
      MovedErr(w, w1, k, Flatten(chunks));
    }
  }

  // ---------------------------------------------------- which calls are made

  lemma DeliverFed(w: World, env: Env, k: Sink, data: string)
    requires k.backup != Some(SIZE_FILE)
    ensures Fed(w, Deliver(w, env, k, data).0, env, k.path, Writes)
  {
    hide Perform;
    var c := Write(k.path, data);
    FedOne(w, env, k.path, Writes, c);
    if k.backup.Some? && Last(Perform(w, env, c)).ok {
      var w1 := Perform(w, env, c);
      var c' := WriteBackup(k.path, k.backup.value, data);
      FedOne(w1, env, k.path, Writes, c');
      FedThen(w, w1, Perform(w1, env, c'), env, k.path, Writes);
    }
  }

  lemma {:induction false} PushFed(w: World, env: Env, k: Sink, b: Buf, p: string)
    requires |b.pending| <= CAPACITY && k.backup != Some(SIZE_FILE)
    ensures Fed(w, Push(w, env, k, b, p).0, env, k.path, Writes)
    decreases |p|, |b.pending|
  {
    hide Deliver, Fed;
    var room := CAPACITY - |b.pending|;
    FedNone(w, env, k.path, Writes);
    if !b.err && |p| > room {
      if b.pending == "" {
        DeliverFed(w, env, k, p);
      } else {
        var b0 := b.(pending := b.pending + p[..room]);
        DeliverFed(w, env, k, b0.pending);
        var (w1, b1) := Flush(w, env, k, b0);
        if !b1.err {
          PushFed(w1, env, k, b1, p[room..]);
          FedThen(w, w1, Push(w1, env, k, b1, p[room..]).0, env, k.path, Writes);
        }
      }
    }
  }

  lemma {:induction false} DrainFed(w: World, env: Env, k: Sink, b: Buf, chunks: seq<string>)
    requires |b.pending| <= CAPACITY && k.backup != Some(SIZE_FILE)
    ensures var (w1, b1) := PushAll(w, env, k, b, chunks);
            Fed(w, Flush(w1, env, k, b1).0, env, k.path, Writes)
    decreases |chunks|
  {
    hide Deliver, Fed, Push;
    FedNone(w, env, k.path, Writes);
    if chunks == [] || b.err {
      if b.pending != "" { DeliverFed(w, env, k, b.pending); }
    } else {
      var (w1, b1) := Push(w, env, k, b, chunks[0]);
      PushFed(w, env, k, b, chunks[0]);
      DrainFed(w1, env, k, b1, chunks[1..]);
      var (w2, b2) := PushAll(w1, env, k, b1, chunks[1..]);
      FedThen(w, w1, Flush(w2, env, k, b2).0, env, k.path, Writes);
    }
  }

  /** A backup-stream call makes feeding calls only. */
  lemma StreamFed(w: World, env: Env, path: string, es: seq<Entry>, broken: bool)
    requires es != []
    ensures Fed(w, Stream(w, env, path, es, broken).0, env, path, Streams)
  {
    hide PushAll, Flush, StreamPlan, Perform, Fed;
    var plan, name := StreamPlan(es, broken), es[0].hdr.name;
    if name !in MUTATED {
      DrainFed(w, env, Sink(path, None), EMPTY_BUFFER, plan.chunks);
      FedWiden(w, Drain(w, env, Sink(path, None), plan.chunks).0, env, path, Writes, Streams);
    } else {
      var file := MUTATED[name];
      assert file != SIZE_FILE;
      var w0 := Perform(w, env, CreateBackup(path, file));
      FedOne(w, env, path, Streams, CreateBackup(path, file));
      if Last(w0).ok {
        var k := Sink(path, Some(file));
        DrainFed(w0, env, k, EMPTY_BUFFER, plan.chunks);
        var (w1, b) := Drain(w0, env, k, plan.chunks);
        FedWiden(w0, w1, env, path, Writes, Streams);
        var w2 := Perform(w1, env, CloseBackupWriter(path, file));
        FedOne(w1, env, path, Streams, CloseBackupWriter(path, file));
        FedOne(w2, env, path, Streams, CloseBackupFile(path, file));
        FedThen(w, w0, w1, env, path, Streams);
        FedThen(w, w1, w2, env, path, Streams);
        FedThen(w, w2, Perform(w2, env, CloseBackupFile(path, file)), env, path, Streams);
      }
    }
  }

  // ---------------------------------------------------- the main result

  /** The disk after a file has been streamed: layer writer and backup hold the same bytes. */
  function Streamed(d: Disk, path: string, name: string, data: string): Disk
    requires path in d.folders
  {
    var f := d.folders[path];
    var g := f.(entries := Extend(f.entries, data));
    Put(d, path, if BackupOf(name).Some? then g.(files := f.files[BackupOf(name).value := data]) else g)
  }

  /**
   How a backup-stream call may end. As the tar stream does, unless a create, write or flush failed, or a close
   failed while more entries follow. Unless a create, write or flush failed, and however the call ends, the layer
   writer has received exactly the bytes that were read, and the backup of a boot file the same bytes.
   */
  ghost predicate Outcome(w: World, w': World, end: StreamEnd, path: string, name: string, plan: Plan)
    requires path in w.disk.folders
  {
    && Extends(w, w')
    && end == (if plan.end == Failed || WriteFailed(w, w') then Failed
               else if plan.end == More && !AllOk(w, w') then Failed
               else plan.end)
    && (!WriteFailed(w, w') ==> w'.disk == Streamed(w.disk, path, name, Flatten(plan.chunks)))
  }

  /** The tee and the buffer, for any chunking and whatever earlier entries left in the buffer. */
  lemma StreamDelivers(w: World, env: Env, path: string, es: seq<Entry>, broken: bool)
    requires es != [] && Ready(w.disk, Sink(path, None))
    ensures var (w', end) := Stream(w, env, path, es, broken);
            Outcome(w, w', end, path, es[0].hdr.name, StreamPlan(es, broken))
  {
    hide Drain, StreamPlan, Fed, Flatten, BackupOf;
    var plan, name := StreamPlan(es, broken), es[0].hdr.name;
    TableIsRight(name);
    if BackupOf(name).None? {
      DrainWrites(w, env, Sink(path, None), plan.chunks);
    } else {
      TeeDelivers(w, env, path, name, plan);
    }
  }

  lemma TeeDelivers(w: World, env: Env, path: string, name: string, plan: Plan)
    requires BackupOf(name).Some? && Ready(w.disk, Sink(path, None))
    ensures var file := BackupOf(name).value;
            var w0 := Perform(w, env, CreateBackup(path, file));
            if !Last(w0).ok then Outcome(w, w0, Failed, path, name, plan)
            else
              var (w1, b) := Drain(w0, env, Sink(path, Some(file)), plan.chunks);
              var w2 := Perform(w1, env, CloseBackupWriter(path, file));
              var w3 := Perform(w2, env, CloseBackupFile(path, file));
              var end := Merge(if b.err then Failed else plan.end, Last(w2).ok && Last(w3).ok);
              Outcome(w, w3, end, path, name, plan)
  {
    hide Drain, Fed, Flatten, AllOk, WriteFailed, Extends, BackupOf;
    TableIsRight(name);
    var file := BackupOf(name).value;
    var w0 := Perform(w, env, CreateBackup(path, file));
    TraceOne(w, env, CreateBackup(path, file));
    if Last(w0).ok {
      var k := Sink(path, Some(file));
      TeeDisk(w.disk, w0.disk, path, name, Flatten(plan.chunks));
      DrainWrites(w0, env, k, plan.chunks);
      var (w1, b) := Drain(w0, env, k, plan.chunks);
      TeeCloses(w, w0, w1, env, path, name, plan, b);
    }
  }

  lemma TeeCloses(w: World, w0: World, w1: World, env: Env, path: string, name: string, plan: Plan, b: Buf)
    requires BackupOf(name).Some? && path in w.disk.folders
    requires Extends(w, w0) && AllOk(w, w0) && !WriteFailed(w, w0)
    requires Extends(w0, w1) && (AllOk(w0, w1) <==> !b.err) && (WriteFailed(w0, w1) <==> b.err)
    requires !b.err ==> w1.disk == Streamed(w.disk, path, name, Flatten(plan.chunks))
    ensures var w2 := Perform(w1, env, CloseBackupWriter(path, BackupOf(name).value));
            var w3 := Perform(w2, env, CloseBackupFile(path, BackupOf(name).value));
            var end := Merge(if b.err then Failed else plan.end, Last(w2).ok && Last(w3).ok);
            Outcome(w, w3, end, path, name, plan)
  {
    hide Flatten, AllOk, WriteFailed, Extends, Streamed, BackupOf;
    var file := BackupOf(name).value;
    var w2 := Perform(w1, env, CloseBackupWriter(path, file));
    var w3 := Perform(w2, env, CloseBackupFile(path, file));
    TraceOne(w1, env, CloseBackupWriter(path, file));
    TraceOne(w2, env, CloseBackupFile(path, file));
    TraceThen(w, w0, w1);
    TraceThen(w, w1, w2);
    TraceThen(w, w2, w3);
  }

  lemma TeeDisk(d: Disk, d0: Disk, path: string, name: string, data: string)
    requires BackupOf(name).Some? && Ready(d, Sink(path, None))
    requires d0 == Put(d, path, d.folders[path].(files := d.folders[path].files[BackupOf(name).value := ""]))
    ensures Ready(d0, Sink(path, BackupOf(name)))
    ensures After(d0, Sink(path, BackupOf(name)), data) == Streamed(d, path, name, data)
  {
    hide BackupOf;
    var f, file := d.folders[path], BackupOf(name).value;
    assert "" + data == data;
    assert f.files[file := ""][file := data] == f.files[file := data];
    assert After(d0, Sink(path, Some(file)), data).folders == Streamed(d, path, name, data).folders;
  }

  lemma DrainWrites(w: World, env: Env, k: Sink, chunks: seq<string>)
    requires Ready(w.disk, k) && k.backup != Some(SIZE_FILE)
    ensures var (w', b) := Drain(w, env, k, chunks);
            Moved(w, w', k, Flatten(chunks), b.err) && (b.err <==> WriteFailed(w, w'))
  {
    DrainDelivers(w, env, k, chunks);
    DrainFed(w, env, k, EMPTY_BUFFER, chunks);
    FedTrace(w, Drain(w, env, k, chunks).0, env, k.path, Writes);
  }

  /** The order of the deferred calls: create, every write and the flush, then close the writer, then the file. */
  lemma TeeOrder(w: World, env: Env, path: string, es: seq<Entry>, broken: bool)
    requires es != [] && BackupOf(es[0].hdr.name).Some?
    ensures var t, at, file := Stream(w, env, path, es, broken).0.trace, |w.trace|, BackupOf(es[0].hdr.name).value;
            && |t| > at && t[at].call == CreateBackup(path, file)
            && (if !t[at].ok then |t| == at + 1
                else
                  && |t| >= at + 3
                  && t[|t| - 2].call == CloseBackupWriter(path, file) && t[|t| - 1].call == CloseBackupFile(path, file)
                  && forall i :: at < i < |t| - 2 ==> InScope(t[i].call, path, Writes))
  {
    hide Drain, StreamPlan, Perform, Fed, InScope, AllOk, WriteFailed, Merge, PushAll, Flush, BackupOf;
    TableIsRight(es[0].hdr.name);
    var file, plan := BackupOf(es[0].hdr.name).value, StreamPlan(es, broken);
    var w0 := Perform(w, env, CreateBackup(path, file));
    TraceOne(w, env, CreateBackup(path, file));
    if Last(w0).ok {
      var k := Sink(path, Some(file));
      DrainFed(w0, env, k, EMPTY_BUFFER, plan.chunks);
      DrainIs(w0, env, k, plan.chunks);
      var w1 := Drain(w0, env, k, plan.chunks).0;
      FedTrace(w0, w1, env, path, Writes);
      var w2 := Perform(w1, env, CloseBackupWriter(path, file));
      TraceOne(w1, env, CloseBackupWriter(path, file));
      TraceOne(w2, env, CloseBackupFile(path, file));
      OrderedTrace(w, w0, w1, w2, Perform(w2, env, CloseBackupFile(path, file)), path);
    }
  }

  lemma OrderedTrace(w: World, w0: World, w1: World, w2: World, w3: World, path: string)
    requires Extends(w, w0) && |w0.trace| == |w.trace| + 1 && Extends(w0, w1)
    requires forall i :: |w0.trace| <= i < |w1.trace| ==> InScope(w1.trace[i].call, path, Writes)
    requires Extends(w1, w2) && |w2.trace| == |w1.trace| + 1 && Extends(w2, w3) && |w3.trace| == |w2.trace| + 1
    ensures w3.trace[|w.trace|] == Last(w0) && w3.trace[|w3.trace| - 2] == Last(w2) && w3.trace[|w3.trace| - 1] == Last(w3)
    ensures forall i :: |w.trace| < i < |w3.trace| - 2 ==> InScope(w3.trace[i].call, path, Writes)
  {
    hide InScope;
    assert forall i :: 0 <= i < |w0.trace| ==> w1.trace[i] == w0.trace[i];
    assert forall i :: 0 <= i < |w1.trace| ==> w2.trace[i] == w1.trace[i];
    assert forall i :: 0 <= i < |w2.trace| ==> w3.trace[i] == w2.trace[i];
  }

  lemma DrainIs(w: World, env: Env, k: Sink, chunks: seq<string>)
    ensures var (w1, b) := PushAll(w, env, k, EMPTY_BUFFER, chunks); Drain(w, env, k, chunks) == Flush(w1, env, k, b)
  {
    hide PushAll, Flush;
  }

  // ---------------------------------------------------- the object

  /** `Streamer`: the tar reader, positioned on an entry whose header has been handed out, and the buffer. */
  class Streamer {
    const host: Host
    var rest: seq<Entry>
    var broken: bool
    var onEntry: bool
    var pending: string
    var err: bool
    var sink: Sink

    constructor (host: Host)
      ensures this.host == host && rest == [] && !broken && !onEntry && pending == "" && !err
    {
      this.host := host;
      rest, broken, onEntry := [], false, false;
      pending, err, sink := "", false, Sink("", None);
    }

    predicate Valid()
      reads this
    {
      (onEntry ==> rest != []) && |pending| <= CAPACITY
    }

    method SetReader(tape: Tape)
      requires Valid()
      modifies this, host
      ensures Valid() && rest == tape.entries && broken == tape.broken && !onEntry
      ensures host.View() == Perform(old(host.View()), host.env, Call.SetReader)
    {
      var _ := host.Do(Call.SetReader);
      rest, broken, onEntry := tape.entries, tape.broken, false;
    }

    /** `SetReader` with an empty reader. */
    method ClearReader()
      requires Valid()
      modifies this, host
      ensures Valid() && rest == [] && !broken && !onEntry
      ensures host.View() == Perform(old(host.View()), host.env, ResetReader)
    {
      var _ := host.Do(ResetReader);
      rest, broken, onEntry := [], false, false;
    }

    /** Skips what is left of the current entry; with `More`, the new header is `rest[0].hdr`. */
    method Next() returns (end: StreamEnd)
      requires Valid()
      modifies this, host
      ensures Valid() && broken == old(broken)
      ensures rest == if old(onEntry) then old(rest)[1..] else old(rest)
      ensures onEntry == (rest != [])
      ensures end == if rest != [] then More else if broken then Failed else Eof
      ensures host.View() == Perform(old(host.View()), host.env, Call.Next)
    {
      var _ := host.Do(Call.Next);
      if onEntry {
        rest := rest[1..];
      }
      onEntry := rest != [];
      end := if rest != [] then More else if broken then Failed else Eof;
    }

    method DeliverOut(data: string) returns (ok: bool)
      modifies host
      ensures (host.View(), ok) == Deliver(old(host.View()), host.env, sink, data)
    {
      var e := host.Do(Write(sink.path, data));
      if e.ok && sink.backup.Some? {
        e := host.Do(WriteBackup(sink.path, sink.backup.value, data));
      }
      ok := e.ok;
    }

    method BufFlush()
      requires Valid()
      modifies this`pending, this`err, host
      ensures Valid()
      ensures (host.View(), Buf(pending, err)) == Flush(old(host.View()), host.env, sink, old(Buf(pending, err)))
    {
      if !err && pending != "" {
        var ok := DeliverOut(pending);
        if ok {
          pending := "";
        } else {
          err := true;
        }
      }
    }

    method BufWrite(data: string)
      requires Valid()
      modifies this`pending, this`err, host
      ensures Valid()
      ensures (host.View(), Buf(pending, err)) == Push(old(host.View()), host.env, sink, old(Buf(pending, err)), data)
    {
      hide Deliver;
      var p := data;
      while |p| > CAPACITY - |pending| && !err
        invariant Valid()
        invariant Push(old(host.View()), host.env, sink, old(Buf(pending, err)), data)
               == Push(host.View(), host.env, sink, Buf(pending, err), p)
        decreases |p|, |pending|, !err
      {
        if pending == "" {
          var ok := DeliverOut(p);
          p, err := "", !ok;
        } else {
          var room := CAPACITY - |pending|;
          pending := pending + p[..room];
          p := p[room..];
          BufFlush();
        }
      }
      if !err {
        pending := pending + p;
      }
    }

    /** The library call: it writes its chunks in order and stops at the first write error. */
    method BackupTar(chunks: seq<string>)
      requires Valid()
      modifies this`pending, this`err, host
      ensures Valid()
      ensures (host.View(), Buf(pending, err)) == PushAll(old(host.View()), host.env, sink, old(Buf(pending, err)), chunks)
    {
      hide Push;
      var i := 0;
      while i < |chunks| && !err
        invariant 0 <= i <= |chunks| && Valid()
        invariant PushAll(old(host.View()), host.env, sink, old(Buf(pending, err)), chunks)
               == PushAll(host.View(), host.env, sink, Buf(pending, err), chunks[i..])
      {
        assert chunks[i..][1..] == chunks[i + 1..];
        BufWrite(chunks[i]);
        i := i + 1;
      }
    }

    /**
     Resets the buffer, streams the current entry with its alternate streams, then flushes and closes in the
     order of the deferred calls. Nothing of the old buffer shows in the result.
     */
    method WriteBackupStreamFromTarFile(path: string) returns (end: StreamEnd)
      requires Valid() && onEntry
      modifies this, host
      ensures Valid() && broken == old(broken)
      ensures (host.View(), end) == Stream(old(host.View()), host.env, path, old(rest), old(broken))
      ensures end != Failed ==> rest == StreamPlan(old(rest), old(broken)).rest && onEntry == (end == More)
    {
      hide PushAll, Flush, StreamPlan;
      var name := rest[0].hdr.name;
      var plan := StreamPlan(rest, broken);
      PlanShape(rest, broken);
      var backup := None;
      if name in MUTATED {
        var e := host.Do(CreateBackup(path, MUTATED[name]));
        if !e.ok {
          return Failed;
        }
        backup := Some(MUTATED[name]);
      }
      sink, pending, err := Sink(path, backup), "", false;
      BackupTar(plan.chunks);
      rest, onEntry := plan.rest, plan.rest != [];
      BufFlush();
      end := if err then Failed else plan.end;
      if backup.Some? {
        var w := host.Do(CloseBackupWriter(path, backup.value));
        var f := host.Do(CloseBackupFile(path, backup.value));
        end := Merge(end, w.ok && f.ok);
      }
    }
  }

  lemma PlanShape(es: seq<Entry>, broken: bool)
    requires es != []
    ensures StreamPlan(es, broken).end == More ==> StreamPlan(es, broken).rest != []
    ensures StreamPlan(es, broken).end == Eof ==> StreamPlan(es, broken).rest == []
    ensures |StreamPlan(es, broken).rest| < |es|
  {
    AlternatesShrink(es[1..], broken, es[0].hdr.name);
  }
}
