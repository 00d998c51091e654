/**
 What one run of `Unpack` does to the disk, step by step and as a whole, from whatever disk and at whatever point of
 a process's life it starts: what it leaves of a committed layer, and what the size file it writes stands for.
 */
module Runs {
  import opened GoBase
  import opened Tar
  import opened Machine
  import opened Hcs
  import opened Unpack

  /** The layer carries its commit marker. */
  predicate Marked(d: Disk, path: string) { HasFile(d, path, SIZE_FILE) }

  /** A layer built on its parents from the whole archive and committed. */
  function Finished(job: Job): Folder {
    var f := Filled(Begun(job), job.tape.entries);
    f.(sealed := true, files := f.files[SIZE_FILE := FormatInt(Wrap64(TotalSize(job.tape.entries)))])
  }

  /** The folder a new layer writer starts on. */
  function Begun(job: Job): Folder { FRESH.(parents := job.parents) }

  /** The folder is that layer, up to whether the writer's Close succeeded, which `Unpack` does not look at. */
  predicate Complete(f: Folder, job: Job) {
    Sound(job.tape.entries) && !job.tape.broken && f.(sealed := true) == Finished(job)
  }

  lemma {:induction false} FinishedMeans(job: Job)
    ensures Finished(job).entries == Logical(job.tape.entries)
    ensures Finished(job).stage == Created && Finished(job).parents == job.parents
    ensures SIZE_FILE == "size" && Finished(job).files["size"] == FormatInt(Wrap64(TotalSize(job.tape.entries)))
  {
    hide Filled, FormatInt, TotalSize, Logical;
    FilledEntries(Begun(job), job.tape.entries);
    assert [] + Logical(job.tape.entries) == Logical(job.tape.entries);
  }

  /** Beside the layer there are the size and the backups of the boot files in the archive, and nothing else. */
  lemma FinishedFiles(job: Job)
    ensures var files, es := Finished(job).files, job.tape.entries;
            && Kept(files, "bcd.bak", LastStream(es, "UtilityVM/Files/EFI/Microsoft/Boot/BCD"))
            && Kept(files, "bcd.log.bak", LastStream(es, "UtilityVM/Files/EFI/Microsoft/Boot/BCD.LOG"))
            && Kept(files, "bcd.log1.bak", LastStream(es, "UtilityVM/Files/EFI/Microsoft/Boot/BCD.LOG1"))
            && Kept(files, "bcd.log2.bak", LastStream(es, "UtilityVM/Files/EFI/Microsoft/Boot/BCD.LOG2"))
            && forall file :: file in files ==> file in {"size", "bcd.bak", "bcd.log.bak", "bcd.log1.bak", "bcd.log2.bak"}
  {
    hide Filled, LastStream, FormatInt, TotalSize;
    BackupsNamed(Begun(job), job.tape.entries);
    forall file | file in Finished(job).files
      ensures file in {"size", "bcd.bak", "bcd.log.bak", "bcd.log1.bak", "bcd.log2.bak"}
    {
      assert file !in {"size", "bcd.bak", "bcd.log.bak", "bcd.log1.bak", "bcd.log2.bak"} ==>
          Holds(Begun(job), Filled(Begun(job), job.tape.entries), file, None);
    }
  }

  predicate Kept(files: map<string, string>, file: string, stream: Option<string>) {
    if stream.Some? then file in files && files[file] == stream.value else file !in files
  }

  // ---------------------------------------------------- every step of every run

  /**
   No entry that the run can get to is created as the size file itself. Only the writer of a base layer works in the
   folder where the driver keeps that file.
   */
  predicate Clear(job: Job) { job.parents == [] ==> !ReachesMarker(job.tape.entries) }

  /** Nothing but the folder at `path` has changed. */
  predicate Elsewhere(d: Disk, d': Disk, path: string) {
    d'.quotas == d.quotas && d'.folders - {path} == d.folders - {path}
  }

  /** The writer's Close has succeeded. */
  predicate Shut(t: seq<Event>, path: string) { exists i :: 0 <= i < |t| && t[i].call == CloseWriter(path) && t[i].ok }

  /**
   What the calls `t` of a run for `job` may have done to the disk `d`: nothing outside the layer and nothing to a
   committed one; and if they committed it, it is complete, and sealed exactly if Close has succeeded.
   */
  predicate Safe(d: Disk, t: seq<Event>, job: Job) {
    var d' := Replay(d, t);
    && Elsewhere(d, d', job.path)
    && (Marked(d, job.path) ==> d' == d)
    && (!Marked(d, job.path) && Clear(job) && Marked(d', job.path) ==> Done(d', t, job))
  }

  predicate Done(d: Disk, t: seq<Event>, job: Job)
    requires Marked(d, job.path)
  {
    Complete(d.folders[job.path], job) && (d.folders[job.path].sealed <==> Shut(t, job.path))
  }

  predicate AllSafe(d: Disk, t: seq<Event>, job: Job) { Safe(d, t, job) && (t == [] || AllSafe(d, t[..|t| - 1], job)) }

  /** The run that began at `start` stands where its calls since then say, and every point it passed was safe. */
  predicate OnTrack(start: World, w: World, job: Job, shut: bool) {
    && Extends(start, w) && w.disk == Replay(start.disk, Since(start, w))
    && AllSafe(start.disk, Since(start, w), job) && Shut(Since(start, w), job.path) == shut
  }

  /** Killing the run anywhere leaves a disk that is safe with respect to the start. */
  lemma {:induction false} PrefixSafe(d: Disk, t: seq<Event>, job: Job, cut: nat)
    requires AllSafe(d, t, job) && cut <= |t|
    ensures Safe(d, t[..cut], job)
  {
    hide Safe;
    if cut < |t| {
      assert t[..|t| - 1][..cut] == t[..cut];
      PrefixSafe(d, t[..|t| - 1], job, cut);
    } else {
      assert t[..cut] == t;
    }
  }

  lemma Step(start: World, w: World, env: Env, c: Call, job: Job, shut: bool, shut': bool)
    requires OnTrack(start, w, job, shut) && shut' == (shut || (c == CloseWriter(job.path) && Last(Perform(w, env, c)).ok))
    requires Elsewhere(w.disk, Perform(w, env, c).disk, job.path)
    requires Marked(start.disk, job.path) ==> Perform(w, env, c).disk == w.disk
    requires var d' := Perform(w, env, c).disk;
             !Marked(start.disk, job.path) && Clear(job) && Marked(d', job.path) ==>
               Complete(d'.folders[job.path], job) && d'.folders[job.path].sealed == shut'
    ensures OnTrack(start, Perform(w, env, c), job, shut')
  {
    hide Apply, Reply, Complete, Clear, Elsewhere, Safe, Shut, Replay, Marked;
    var w' := Perform(w, env, c);
    var t, t', e := Since(start, w), Since(start, w'), Last(w');
    assert w'.trace[..|start.trace|] == w.trace[..|start.trace|];
    assert t' == t + [e] && t'[..|t'| - 1] == t;
    CallOf(w, env, c);
    ReplayStep(start.disk, t, e);
    SafeStep(start.disk, t, e, job, shut, shut');
  }

  lemma ReplayStep(d: Disk, t: seq<Event>, e: Event)
    ensures Replay(d, t + [e]) == Apply(Replay(d, t), e)
  {
    hide Apply;
    assert (t + [e])[..|t + [e]| - 1] == t;
  }

  lemma SafeStep(d: Disk, t: seq<Event>, e: Event, job: Job, shut: bool, shut': bool)
    requires Safe(d, t, job) && Shut(t, job.path) == shut && shut' == (shut || (e.call == CloseWriter(job.path) && e.ok))
    requires Elsewhere(Replay(d, t), Replay(d, t + [e]), job.path)
    requires Marked(d, job.path) ==> Replay(d, t + [e]) == Replay(d, t)
    requires var d' := Replay(d, t + [e]);
             !Marked(d, job.path) && Clear(job) && Marked(d', job.path) ==>
               Complete(d'.folders[job.path], job) && d'.folders[job.path].sealed == shut'
    ensures Safe(d, t + [e], job) && Shut(t + [e], job.path) == shut'
  {
    hide Complete, Clear, Replay, Shut;
    ShutStep(t, e, job.path);
  }

  lemma ShutStep(t: seq<Event>, e: Event, path: string)
    ensures Shut(t + [e], path) <==> Shut(t, path) || (e.call == CloseWriter(path) && e.ok)
  {
    assert forall i :: 0 <= i < |t| ==> (t + [e])[i] == t[i];
    assert (t + [e])[|t|] == e;
  }

  /** A step before the commit: an uncommitted layer stays uncommitted, or its archive was not clear of the marker. */
  lemma StepOpen(start: World, w: World, env: Env, c: Call, job: Job)
    requires OnTrack(start, w, job, false) && !Marked(start.disk, job.path) && !c.CloseWriter?
    requires Elsewhere(w.disk, Perform(w, env, c).disk, job.path)
    requires Clear(job) ==> !Marked(Perform(w, env, c).disk, job.path)
    ensures OnTrack(start, Perform(w, env, c), job, false)
  {
    hide OnTrack, Perform, Complete, Clear;
    Step(start, w, env, c, job, false, false);
  }

  predicate Reads(c: Call) {
    c.LayerExists? || c.ReadFile? || c.Next? || c.SetReader? || c.ResetReader? || c.EnablePrivileges? || c.DisablePrivileges?
  }

  lemma StepQuiet(start: World, w: World, env: Env, c: Call, job: Job, shut: bool)
    requires OnTrack(start, w, job, shut) && Reads(c)
    ensures OnTrack(start, Perform(w, env, c), job, shut) && Perform(w, env, c).disk == w.disk
  {
    hide Perform, Complete, Clear;
    ReadEffect(w, env, c);
    Step(start, w, env, c, job, shut, shut);
  }

  lemma TrackExtends(start: World, w: World, job: Job, shut: bool)
    requires OnTrack(start, w, job, shut)
    ensures Extends(start, w)
  {
  }

  lemma TrackStart(w: World, job: Job)
    ensures OnTrack(w, w, job, false)
  {
  }

  /** Which calls of the loop a job can lead to. */
  function ScopeOf(job: Job): Scope { if job.parents == [] && Clear(job) then Quiet else Feeds }

  /** The layer is open for its writer. */
  predicate Feeding(d: Disk, job: Job) {
    job.path in d.folders && d.folders[job.path].parents == job.parents && (Clear(job) ==> !Marked(d, job.path))
  }

  /** Feeding an uncommitted layer is safe and leaves it uncommitted, unless the archive names the marker. */
  lemma {:induction false} FedSafe(start: World, w: World, env: Env, cs: seq<Call>, job: Job)
    requires OnTrack(start, w, job, false) && !Marked(start.disk, job.path) && Feeding(w.disk, job)
    requires AllInScope(cs, job.path, ScopeOf(job))
    ensures var w' := RunCalls(w, env, cs); OnTrack(start, w', job, false) && Feeding(w'.disk, job)
  {
    hide OnTrack, Apply, Reply, Marked, ScopeOf, Clear, InScope, Elsewhere;
    if cs != [] {
      var init, c := cs[..|cs| - 1], cs[|cs| - 1];
      assert InScope(c, job.path, ScopeOf(job));
      FedSafe(start, w, env, init, job);
      var w1 := RunCalls(w, env, init);
      FeedCallSafe(w1.disk, c, env(|w1.trace|), job);
      StepOpen(start, w1, env, c, job);
    }
  }

  lemma FeedCallSafe(d: Disk, c: Call, a: Answer, job: Job)
    requires Feeding(d, job) && InScope(c, job.path, ScopeOf(job))
    ensures var d' := Apply(d, Reply(d, c, a)); Feeding(d', job) && Elsewhere(d, d', job.path)
    ensures !c.CloseWriter?
  {
    hide Clear, Extend, Restrict, RootFile;
  }

  lemma {:induction false} DestroySafe(start: World, w: World, env: Env, n: nat, job: Job)
    requires n >= 1 && OnTrack(start, w, job, false) && !Marked(start.disk, job.path) && !Marked(w.disk, job.path)
    ensures var w' := DestroyFrom(w, env, job.path, n).0; OnTrack(start, w', job, false) && !Marked(w'.disk, job.path)
    decreases n
  {
    hide OnTrack, DestroyFrom, Clear, Perform, Marked, Elsewhere;
    var w1 := Perform(w, env, UnprepareLayer(job.path));
    RemovingCall(w, env, UnprepareLayer(job.path), job.path);
    StepOpen(start, w, env, UnprepareLayer(job.path), job);
    var w2 := Perform(w1, env, DeactivateLayer(job.path));
    RemovingCall(w1, env, DeactivateLayer(job.path), job.path);
    StepOpen(start, w1, env, DeactivateLayer(job.path), job);
    var w3 := Perform(w2, env, RemoveLayer(job.path));
    RemovingCall(w2, env, RemoveLayer(job.path), job.path);
    StepOpen(start, w2, env, RemoveLayer(job.path), job);
    DestroyStep(w, env, job.path, n);
    if n > 1 { DestroySafe(start, w3, env, n - 1, job); }
  }

  lemma RemovingCall(w: World, env: Env, c: Call, path: string)
    requires c == UnprepareLayer(path) || c == DeactivateLayer(path) || c == RemoveLayer(path)
    requires !Marked(w.disk, path)
    ensures var d' := Perform(w, env, c).disk; Elsewhere(w.disk, d', path) && !Marked(d', path)
  {
  }

  /** A success left a complete, marked layer and returned its size; a failure left no marker of its own making. */
  predicate Built(d: Disk, r: Result, job: Job) {
    && r.Returned?
    && (!r.failed ==> Marked(d, job.path) && r.size == Wrap64(TotalSize(job.tape.entries)) && Complete(d.folders[job.path], job))
    && (r.failed && Clear(job) ==> !Marked(d, job.path))
  }

  /** Feeding a fresh folder and committing: a marker appears only on a complete layer. */
  lemma FillSafe(start: World, w: World, env: Env, job: Job)
    requires OnTrack(start, w, job, false) && !Marked(start.disk, job.path)
    requires job.path in w.disk.folders && w.disk.folders[job.path] == Begun(job)
    ensures var (w', r) := Fill(w, env, job);
            OnTrack(start, w', job, false) && Built(w'.disk, r, job) && (!r.failed ==> !w'.disk.folders[job.path].sealed)
  {
    hide OnTrack, Feed, Filled, Sound, Logical, TotalSize, Perform, RunCalls, InScope, Wrap64, FormatInt, Clear, ScopeOf, Finished;
    var w0, es, broken := Perform(w, env, Next), job.tape.entries, job.tape.broken;
    StepQuiet(start, w, env, Next, job, false);
    var (w1, end, total) := Feed(w0, env, job.path, es, broken, 0);
    JobFed(w0, env, job);
    var cs :| AllInScope(cs, job.path, ScopeOf(job)) && w1 == RunCalls(w0, env, cs);
    FedSafe(start, w0, env, cs, job);
    FeedRefines(w0, env, job.path, es, broken, 0);
    if end == Eof {
      Commit(w0.disk, w1, env, job, total);
      Step(start, w1, env, WriteFile(job.path, SIZE_FILE, FormatInt(total)), job, false, false);
    }
  }

  lemma JobFed(w: World, env: Env, job: Job)
    ensures Fed(w, Feed(w, env, job.path, job.tape.entries, job.tape.broken, 0).0, env, job.path, ScopeOf(job))
  {
    hide Feed, Fed;
    FeedFed(w, env, job.path, job.tape.entries, job.tape.broken, 0, ScopeOf(job));
  }

  /** The driver's own write of the size file makes the layer complete, whatever the archive had put there. */
  lemma Commit(d: Disk, w: World, env: Env, job: Job, total: int)
    requires job.path in d.folders && d.folders[job.path] == Begun(job)
    requires Became(d, w.disk, job.path, Filled(Begun(job), job.tape.entries))
    requires Sound(job.tape.entries) && !job.tape.broken && total == Wrap64(0 + TotalSize(job.tape.entries))
    ensures var w' := Perform(w, env, WriteFile(job.path, SIZE_FILE, FormatInt(total)));
            && Elsewhere(w.disk, w'.disk, job.path)
            && (if Last(w').ok then
                  w'.disk == Put(w.disk, job.path, Finished(job).(sealed := false))
                else w'.disk == w.disk)
            && SIZE_FILE in Finished(job).files && Complete(Finished(job).(sealed := false), job)
  {
    hide Filled, Sound, TotalSize, Perform, FormatInt, Wrap64;
    FilledEntries(Begun(job), job.tape.entries);
    WriteFileEffect(w, env, job.path, SIZE_FILE, FormatInt(total));
    var f, g := Filled(Begun(job), job.tape.entries), w.disk.folders[job.path];
    BareMarked(g.files, f.files, FormatInt(total));
    assert g.(files := g.files[SIZE_FILE := FormatInt(total)]) == Finished(job).(sealed := false);
    PutElsewhere(w.disk, job.path, Finished(job).(sealed := false));
  }

  lemma BareMarked(a: map<string, string>, b: map<string, string>, text: string)
    requires a - {SIZE_FILE} == b - {SIZE_FILE}
    ensures a[SIZE_FILE := text] == b[SIZE_FILE := text]
  {
    assert a[SIZE_FILE := text] == (a - {SIZE_FILE})[SIZE_FILE := text];
    assert b[SIZE_FILE := text] == (b - {SIZE_FILE})[SIZE_FILE := text];
  }

  lemma PutElsewhere(d: Disk, path: string, f: Folder)
    ensures Elsewhere(d, Put(d, path, f), path) && Elsewhere(d, d, path)
  {
    assert d.folders[path := f] - {path} == d.folders - {path};
  }

  lemma BuildSafe(start: World, w: World, env: Env, job: Job)
    requires OnTrack(start, w, job, false) && !Marked(start.disk, job.path) && job.path !in w.disk.folders
    ensures var (w', r) := Build(w, env, job);
            && Built(w'.disk, r, job) && |w'.trace| > |start.trace|
            && (if r.failed then OnTrack(start, w', job, Shut(w'.trace[|start.trace|..], job.path))
                else
                  && OnTrack(start, w', job, Last(w').ok)
                  && Last(w').call == CloseWriter(job.path) && w'.disk.folders[job.path].sealed == Last(w').ok)
  {
    hide OnTrack, Fill, Complete, TotalSize, Perform, Clear, Finished;
    BeginSafe(start, w, env, job);
    TrackExtends(start, w, job, false);
    var w1 := Perform(w, env, MkdirAll(job.path));
    if Last(w1).ok {
      var w2 := Perform(w1, env, NewWriter(job.path, job.parents));
      if Last(w2).ok {
        var w3 := Perform(w2, env, SetReader);
        FillSafe(start, w3, env, job);
        var (w4, r) := Fill(w3, env, job);
        CloseSafe(start, w4, env, job, r);
        TrackExtends(start, w4, job, false);
        TrackShut(start, Build(w, env, job).0, job, Last(Build(w, env, job).0).ok);
      } else {
        TrackShut(start, w2, job, false);
      }
    } else {
      TrackShut(start, w1, job, false);
    }
  }

  lemma TrackShut(start: World, w: World, job: Job, shut: bool)
    requires OnTrack(start, w, job, shut)
    ensures |start.trace| <= |w.trace| && Shut(w.trace[|start.trace|..], job.path) == shut
  {
  }

  /** Making the folder and opening its writer. */
  lemma BeginSafe(start: World, w: World, env: Env, job: Job)
    requires OnTrack(start, w, job, false) && !Marked(start.disk, job.path) && job.path !in w.disk.folders
    ensures var w1 := Perform(w, env, MkdirAll(job.path));
            && OnTrack(start, w1, job, false) && !Marked(w1.disk, job.path)
            && (Last(w1).ok ==>
                  var w2 := Perform(w1, env, NewWriter(job.path, job.parents));
                  && OnTrack(start, w2, job, false) && !Marked(w2.disk, job.path)
                  && (Last(w2).ok ==>
                        var w3 := Perform(w2, env, SetReader);
                        OnTrack(start, w3, job, false) && job.path in w3.disk.folders && w3.disk.folders[job.path] == Begun(job)))
  {
    hide OnTrack, Complete, Perform, Clear, Elsewhere;
    var w1 := Perform(w, env, MkdirAll(job.path));
    MkdirEffect(w, env, job.path);
    PutElsewhere(w.disk, job.path, FRESH);
    StepOpen(start, w, env, MkdirAll(job.path), job);
    if Last(w1).ok {
      var w2 := Perform(w1, env, NewWriter(job.path, job.parents));
      NewWriterEffect(w1, env, job.path, job.parents);
      PutElsewhere(w1.disk, job.path, Begun(job));
      StepOpen(start, w1, env, NewWriter(job.path, job.parents), job);
      if Last(w2).ok { StepQuiet(start, w2, env, SetReader, job, false); }
    }
  }

  lemma CloseSafe(start: World, w: World, env: Env, job: Job, r: Result)
    requires OnTrack(start, w, job, false) && !Marked(start.disk, job.path) && Built(w.disk, r, job)
    requires !r.failed ==> !w.disk.folders[job.path].sealed
    ensures var w' := Perform(Perform(w, env, ResetReader), env, CloseWriter(job.path));
            && OnTrack(start, w', job, Last(w').ok) && Built(w'.disk, r, job)
            && Last(w').call == CloseWriter(job.path)
            && (!r.failed ==> w'.disk.folders[job.path].sealed == Last(w').ok)
  {
    hide OnTrack, TotalSize, Sound, Finished, Clear, Perform, Elsewhere;
    var w1 := Perform(w, env, ResetReader);
    StepQuiet(start, w, env, ResetReader, job, false);
    CloseEffect(w1, env, job.path);
    Step(start, w1, env, CloseWriter(job.path), job, false, Last(Perform(w1, env, CloseWriter(job.path))).ok);
  }

  lemma CloseEffect(w: World, env: Env, path: string)
    ensures var w' := Perform(w, env, CloseWriter(path));
            && Last(w').call == CloseWriter(path) && Elsewhere(w.disk, w'.disk, path)
            && w'.disk == if path in w.disk.folders then Put(w.disk, path, w.disk.folders[path].(sealed := Last(w').ok)) else w.disk
  {
    if path in w.disk.folders {
      PutElsewhere(w.disk, path, w.disk.folders[path].(sealed := Last(Perform(w, env, CloseWriter(path))).ok));
    }
  }

  /**
   What a whole run does, seen from its start and result. On a committed layer: nothing, and a success is the
   size on file. Otherwise: a success is a complete build, sealed exactly if the writer's Close succeeded; any
   other end leaves the layer uncommitted, if its archive is clear of the marker.
   */
  ghost predicate RunOutcome(start: World, w': World, r: Result, job: Job) {
    var d := start.disk;
    && Extends(start, w') && OnTrack(start, w', job, Shut(Since(start, w'), job.path))
    && (Marked(d, job.path) ==>
          && w'.disk == d
          && (r.Returned? && !r.failed ==> (r.size, true) == ParseInt(d.folders[job.path].files[SIZE_FILE])))
    && (!Marked(d, job.path) && r.Returned? && !r.failed ==>
          && Built(w'.disk, r, job)
          && |w'.trace| >= |start.trace| + 2 && w'.trace[|w'.trace| - 2].call == CloseWriter(job.path)
          && w'.disk.folders[job.path].sealed == w'.trace[|w'.trace| - 2].ok)
    && (!Marked(d, job.path) && !(r.Returned? && !r.failed) && Clear(job) ==> !Marked(w'.disk, job.path))
  }

  /** The part under the privileges, relative to the start of the run. */
  ghost predicate PartOutcome(start: World, w': World, r: Result, job: Job) {
    var d := start.disk;
    && Extends(start, w') && OnTrack(start, w', job, Shut(Since(start, w'), job.path))
    && (Marked(d, job.path) ==>
          w'.disk == d && (r.Returned? && !r.failed ==> (r.size, true) == ParseInt(d.folders[job.path].files[SIZE_FILE])))
    && (!Marked(d, job.path) && r.Returned? && !r.failed ==>
          && Built(w'.disk, r, job) && |w'.trace| > |start.trace|
          && Last(w').call == CloseWriter(job.path) && w'.disk.folders[job.path].sealed == Last(w').ok)
    && (!Marked(d, job.path) && !(r.Returned? && !r.failed) && Clear(job) ==> !Marked(w'.disk, job.path))
  }

  lemma ElevatedSafe(start: World, w: World, env: Env, job: Job)
    requires OnTrack(start, w, job, false) && w.disk == start.disk
    ensures var (w', r) := Elevated(w, env, job, job.path in start.disk.folders); PartOutcome(start, w', r, job)
  {
    hide OnTrack, Build, DestroyFrom, Complete, TotalSize, ParseInt, Clear, Perform;
    if job.path !in start.disk.folders {
      BuildPart(start, w, env, job);
    } else {
      var c := ReadFile(job.path, SIZE_FILE);
      var w1 := Perform(w, env, c);
      StepQuiet(start, w, env, c, job, false);
      ReplyOf(w, env, c);
      TrackExtends(start, w1, job, false);
      TrackShut(start, w1, job, false);
      if Last(w1).ok && !Last(w1).found {
        DestroySafe(start, w1, env, 3, job);
        DestroyOutcome(w1, env, job.path, 3);
        var (w2, s) := DestroyRun(w1, env, job.path);
        TrackExtends(start, w2, job, false);
        TrackShut(start, w2, job, false);
        if s == Nil { BuildPart(start, w2, env, job); }
      }
    }
  }

  lemma BuildPart(start: World, w: World, env: Env, job: Job)
    requires OnTrack(start, w, job, false) && !Marked(start.disk, job.path) && job.path !in w.disk.folders
    ensures var (w', r) := Build(w, env, job); PartOutcome(start, w', r, job)
  {
    hide OnTrack, Build, Complete, TotalSize, Clear;
    BuildSafe(start, w, env, job);
    var (w', r) := Build(w, env, job);
    var shut := if r.failed then Shut(w'.trace[|start.trace|..], job.path) else Last(w').ok;
    TrackExtends(start, w', job, shut);
    TrackShut(start, w', job, shut);
  }

  lemma RunSafe(w: World, env: Env, job: Job)
    ensures var (w', r) := UnpackRun(w, env, job); RunOutcome(w, w', r, job)
  {
    hide Elevated, Complete, TotalSize, ParseInt, OnTrack, Perform, Clear, Shut;
    TrackStart(w, job);
    StepQuiet(w, w, env, LayerExists(job.path), job, false);
    ReplyOf(w, env, LayerExists(job.path));
    var w1 := Perform(w, env, LayerExists(job.path));
    TrackExtends(w, w1, job, false);
    TrackShut(w, w1, job, false);
    if Last(w1).ok {
      StepQuiet(w, w1, env, EnablePrivileges, job, false);
      var w2 := Perform(w1, env, EnablePrivileges);
      TrackExtends(w, w2, job, false);
      TrackShut(w, w2, job, false);
      if Last(w2).ok {
        ElevatedSafe(w, w2, env, job);
        var (w3, r) := Elevated(w2, env, job, Last(w1).found);
        var shut := Shut(Since(w, w3), job.path);
        StepQuiet(w, w3, env, DisablePrivileges, job, shut);
        var w4 := Perform(w3, env, DisablePrivileges);
        TrackExtends(w, w4, job, shut);
        TrackShut(w, w4, job, shut);
        TraceOne(w3, env, DisablePrivileges);
        assert w3.trace != [] ==> w4.trace[..|w3.trace|][|w3.trace| - 1] == Last(w3);
      }
    }
  }

  // ---------------------------------------------------- runs without failures

  /** Without failures every call of the loop succeeds. */
  lemma {:induction false} FedOk(w: World, env: Env, path: string, cs: seq<Call>)
    requires FailureFree(env) && path in w.disk.folders && AllInScope(cs, path, Feeds)
    ensures var w' := RunCalls(w, env, cs); path in w'.disk.folders && Extends(w, w') && AllOk(w, w')
  {
    hide AllOk, Extends;
    if cs == [] {
      OkRefl(w);
    } else {
      var init, c := cs[..|cs| - 1], cs[|cs| - 1];
      assert InScope(c, path, Feeds);
      FedOk(w, env, path, init);
      var w1 := RunCalls(w, env, init);
      TraceOne(w1, env, c);
      TraceThen(w, w1, Perform(w1, env, c));
      assert env(|w1.trace|).ok;
    }
  }

  lemma OkRefl(w: World)
    ensures Extends(w, w) && AllOk(w, w)
  {
  }

  lemma FillClean(w: World, env: Env, job: Job)
    requires FailureFree(env) && job.path in w.disk.folders && w.disk.folders[job.path] == Begun(job)
    requires Sound(job.tape.entries) && !job.tape.broken
    ensures Fill(w, env, job).1.Returned? && !Fill(w, env, job).1.failed
  {
    hide Feed, Sound, AllOk, WriteFailed, Filled;
    var w0, es := Perform(w, env, Next), job.tape.entries;
    var (w1, end, total) := Feed(w0, env, job.path, es, false, 0);
    FeedFed(w0, env, job.path, es, false, 0, Feeds);
    var cs :| AllInScope(cs, job.path, Feeds) && w1 == RunCalls(w0, env, cs);
    FedOk(w0, env, job.path, cs);
    FeedRefines(w0, env, job.path, es, false, 0);
    assert env(|w1.trace|).ok;
  }

  /** From any disk on which the layer is not committed, a failure-free run commits and seals it. */
  lemma CleanRun(d: Disk, env: Env, job: Job)
    requires FailureFree(env) && !Marked(d, job.path)
    requires Sound(job.tape.entries) && !job.tape.broken
    ensures var (w', r) := UnpackRun(World(d, []), env, job);
            && r == Returned(Wrap64(TotalSize(job.tape.entries)), false)
            && w'.disk == Put(d, job.path, Finished(job))
  {
    hide Fill, Sound, TotalSize, Filled, OnTrack, DestroyFrom, Elevated, Clear, Elsewhere, Shut;
    var w := World(d, []);
    RunSafe(w, env, job);
    var w1 := Perform(w, env, LayerExists(job.path));
    var w2 := Perform(w1, env, EnablePrivileges);
    assert env(0).ok && env(1).ok;
    CleanElevated(d, w2, env, job);
    var (w', r) := UnpackRun(w, env, job);
    assert w'.trace[|w'.trace| - 2].ok by {
      assert w'.trace[|w'.trace| - 2] == Last(Elevated(w2, env, job, Last(w1).found).0);
    }
    OnTrackSafe(w, w', job, Shut(Since(w, w'), job.path));
    ElsewhereEquals(d, w'.disk, job.path, Finished(job));
  }

  lemma OnTrackSafe(start: World, w: World, job: Job, shut: bool)
    requires OnTrack(start, w, job, shut)
    ensures Elsewhere(start.disk, w.disk, job.path)
  {
    hide Complete, Clear;
  }

  lemma ElsewhereEquals(d: Disk, d': Disk, p: string, f: Folder)
    requires Elsewhere(d, d', p) && p in d'.folders && d'.folders[p] == f
    ensures d' == Put(d, p, f)
  {
    forall q | q != p
      ensures (q in d.folders <==> q in d'.folders) && (q in d.folders ==> d.folders[q] == d'.folders[q])
    {
      assert q in d.folders <==> q in (d.folders - {p});
      assert q in d'.folders <==> q in (d'.folders - {p});
      if q in d.folders { assert (d.folders - {p})[q] == (d'.folders - {p})[q]; }
    }
    assert d'.folders == Put(d, p, f).folders;
  }

  lemma CleanElevated(d: Disk, w: World, env: Env, job: Job)
    requires FailureFree(env) && w.disk == d && !Marked(d, job.path)
    requires Sound(job.tape.entries) && !job.tape.broken
    ensures var (w', r) := Elevated(w, env, job, job.path in d.folders);
            r.Returned? && !r.failed && w'.trace != [] && Last(w').ok
  {
    hide Build, Sound, DestroyFrom, Attempt;
    if job.path !in d.folders {
      CleanBuild(w, env, job);
    } else {
      var w1 := Perform(w, env, ReadFile(job.path, SIZE_FILE));
      assert env(|w.trace|).ok;
      DestroySucceeds(w1, env, job.path);
      DestroyOutcome(w1, env, job.path, 3);
      CleanBuild(DestroyRun(w1, env, job.path).0, env, job);
    }
  }

  lemma CleanBuild(w: World, env: Env, job: Job)
    requires FailureFree(env) && job.path !in w.disk.folders
    requires Sound(job.tape.entries) && !job.tape.broken
    ensures var (w', r) := Build(w, env, job); r.Returned? && !r.failed && w'.trace != [] && Last(w').ok
  {
    hide Fill, Sound, Perform;
    var w1 := Perform(w, env, MkdirAll(job.path));
    Succeeds(w, env, MkdirAll(job.path));
    MkdirEffect(w, env, job.path);
    var w2 := Perform(w1, env, NewWriter(job.path, job.parents));
    Succeeds(w1, env, NewWriter(job.path, job.parents));
    NewWriterEffect(w1, env, job.path, job.parents);
    var w3 := Perform(w2, env, SetReader);
    ReadEffect(w2, env, SetReader);
    FillClean(w3, env, job);
    Succeeds(Perform(Fill(w3, env, job).0, env, ResetReader), env, CloseWriter(job.path));
  }

  const EMPTY := Disk(map[], map[])

  /** A run returned the archive's size and left the layer committed, sealed exactly if `sealed`. */
  predicate Reached(w: World, r: Result, job: Job, sealed: bool) {
    && r == Returned(Wrap64(TotalSize(job.tape.entries)), false)
    && job.path in w.disk.folders
    && w.disk.folders[job.path] == Finished(job).(sealed := sealed)
  }

  lemma ConvergesFrom(d: Disk, env: Env, job: Job)
    requires FailureFree(env) && Sound(job.tape.entries) && !job.tape.broken
    requires Marked(d, job.path) ==> Complete(d.folders[job.path], job)
    ensures var (w, r) := UnpackRun(World(d, []), env, job);
            Reached(w, r, job, Marked(d, job.path) ==> d.folders[job.path].sealed)
  {
    hide UnpackRun, Sound, TotalSize, Filled;
    if Marked(d, job.path) {
      CommittedRun(d, env, job);
    } else {
      CleanRun(d, env, job);
    }
  }

  lemma CommittedRun(d: Disk, env: Env, job: Job)
    requires FailureFree(env) && Marked(d, job.path) && Complete(d.folders[job.path], job)
    ensures var (w', r) := UnpackRun(World(d, []), env, job);
            && r == Returned(Wrap64(TotalSize(job.tape.entries)), false) && w'.disk == d
            && d.folders[job.path].(sealed := true) == Finished(job)
            && (d.folders[job.path] == Finished(job) <==> d.folders[job.path].sealed)
  {
    hide UnpackRun, Sound, TotalSize, ParseInt, Filled;
    assert env(0).ok && env(1).ok && env(2).ok;
    Cached(d, env, job);
    FinishedMeans(job);
    ParseFormat(Wrap64(TotalSize(job.tape.entries)));
  }

  /** A committed layer is answered from its size file, whatever archive is offered, and stays as it is. */
  lemma Cached(d: Disk, env: Env, job: Job)
    requires Marked(d, job.path) && env(0).ok && env(1).ok && env(2).ok
    ensures var (w', r) := UnpackRun(World(d, []), env, job);
            var (size, ok) := ParseInt(d.folders[job.path].files[SIZE_FILE]);
            w'.disk == d && r == Returned(size, !ok)
  {
    hide ParseInt, Build, DestroyFrom;
    var w1 := Perform(World(d, []), env, LayerExists(job.path));
    var w2 := Perform(w1, env, EnablePrivileges);
    var w3 := Perform(w2, env, ReadFile(job.path, SIZE_FILE));
  }

  /** Success without a seal does happen: the archive is empty and only the writer's Close fails. */
  lemma CommittedUnsealed(env: Env, job: Job)
    requires job.tape == Tape([], false) && forall i: nat :: env(i).ok <==> i != 8
    ensures var (w, r) := UnpackRun(World(EMPTY, []), env, job);
            && r == Returned(0, false)
            && Marked(w.disk, job.path) && !w.disk.folders[job.path].sealed
  {
    hide Perform, Build, FormatInt, OnTrack, Finished;
    var w := World(EMPTY, []);
    RunSafe(w, env, job);
    ReplyOf(w, env, LayerExists(job.path));
    ReadEffect(w, env, LayerExists(job.path));
    var w1 := Perform(w, env, LayerExists(job.path));
    ReplyOf(w1, env, EnablePrivileges);
    ReadEffect(w1, env, EnablePrivileges);
    var w2 := Perform(w1, env, EnablePrivileges);
    EmptyBuild(w2, env, job);
    var w9 := Build(w2, env, job).0;
    TraceOne(w9, env, DisablePrivileges);
    assert Perform(w9, env, DisablePrivileges).trace[..9][8] == w9.trace[8];
  }

  lemma EmptyBuild(w: World, env: Env, job: Job)
    requires job.tape == Tape([], false) && job.path !in w.disk.folders
    requires forall i :: |w.trace| <= i < |w.trace| + 6 ==> env(i).ok
    requires !env(|w.trace| + 6).ok
    ensures var (w', r) := Build(w, env, job);
            r == Returned(0, false) && |w'.trace| == |w.trace| + 7 && !Last(w').ok
  {
    hide Perform, Fill;
    ReplyOf(w, env, MkdirAll(job.path));
    MkdirEffect(w, env, job.path);
    var w1 := Perform(w, env, MkdirAll(job.path));
    ReplyOf(w1, env, NewWriter(job.path, job.parents));
    NewWriterEffect(w1, env, job.path, job.parents);
    var w2 := Perform(w1, env, NewWriter(job.path, job.parents));
    ReadEffect(w2, env, SetReader);
    var w3 := Perform(w2, env, SetReader);
    EmptyFill(w3, env, job);
    ReplyOf(Perform(Fill(w3, env, job).0, env, ResetReader), env, CloseWriter(job.path));
  }

  lemma EmptyFill(w: World, env: Env, job: Job)
    requires job.tape == Tape([], false) && job.path in w.disk.folders && env(|w.trace| + 1).ok
    ensures var (w', r) := Fill(w, env, job); r == Returned(0, false) && |w'.trace| == |w.trace| + 2
  {
    hide Perform, FormatInt;
    ReadEffect(w, env, Next);
    var w1 := Perform(w, env, Next);
    FeedNothing(w1, env, job.path, 0);
    ReplyOf(w1, env, WriteFile(job.path, SIZE_FILE, FormatInt(0)));
  }
}
