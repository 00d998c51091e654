/**
 Archives that name the marker. The writer of a base layer creates its entries in the folder where the driver keeps
 the size file, so an entry of that name is a commit marker. Here: that every such archive can forge one.
 */
module Marker {
  import opened GoBase
  import opened WinPath
  import opened Tar
  import opened Machine
  import opened Hcs
  import opened Tarstream
  import opened Unpack
  import opened Runs
  import opened Histories

  /** Every call succeeds, and files that an archive brings along hold `text`. */
  function Willing(text: string): Env { (i: nat) => Answer(true, false, Created, [], {}, text, 0) }

  /** The folder carries a size file with this text. */
  predicate Forged(d: Disk, path: string, text: string) { HasFile(d, path, SIZE_FILE) && d.folders[path].files[SIZE_FILE] == text }

  lemma AddForges(w: World, text: string, path: string, es: seq<Entry>)
    requires es != [] && NamesMarker(es) && path in w.disk.folders && w.disk.folders[path].parents == []
    ensures var w' := Perform(w, Willing(text), HeadCall(path, es)); Last(w').ok && Forged(w'.disk, path, text)
  {
    hide FileStream, RootFile, FromSlash;
  }

  /** The loop's next step from the head of the archive, and that it goes on from there. */
  lemma FeedGoesOn(w: World, env: Env, path: string, es: seq<Entry>, broken: bool, total: int)
    requires FailureFree(env) && es != [] && path in w.disk.folders && (Classify(es[0].hdr) == File ==> es[0].hdr.info.Some?)
    ensures Extends(Perform(w, env, HeadCall(path, es)), Feed(w, env, path, es, broken, total).0)
  {
    hide Perform, Stream, StreamPlan, Feed, FromSlash, WhiteoutTarget, HeadOp, Fed, InScope, Classify, Wrap64;
    var w1 := Perform(w, env, HeadCall(path, es));
    Succeeds(w, env, HeadCall(path, es));
    HeadCallIs(path, es);
    if Classify(es[0].hdr) == File {
      FeedFile(w, env, path, es, broken, total);
      var (w2, end) := Stream(w1, env, path, es, broken);
      StreamFed(w1, env, path, es, broken);
      FedTrace(w1, w2, env, path, Streams);
      if end == More {
        var rest, sum := StreamPlan(es, broken).rest, Wrap64(total + FileSize(es[0].hdr));
        FeedFed(w2, env, path, rest, broken, sum, Feeds);
        FedTrace(w2, Feed(w2, env, path, rest, broken, sum).0, env, path, Feeds);
        TraceThen(w1, w2, Feed(w2, env, path, rest, broken, sum).0);
      }
    } else {
      var w2 := Perform(w1, env, Next);
      FeedSimple(w, env, path, es, broken, total, HeadCall(path, es));
      TraceOne(w1, env, Next);
      FeedFed(w2, env, path, es[Width(es)..], broken, total, Feeds);
      FedTrace(w2, Feed(w2, env, path, es[Width(es)..], broken, total).0, env, path, Feeds);
      TraceThen(w1, w2, Feed(w2, env, path, es[Width(es)..], broken, total).0);
    }
  }

  /** A sound entry with more behind it is taken, and the loop stands at the next one. */
  lemma HeadTaken(w: World, env: Env, path: string, es: seq<Entry>, broken: bool, total: int) returns (w2: World, sum: int)
    requires FailureFree(env) && es != [] && HeadSound(es) && es[Width(es)..] != [] && path in w.disk.folders
    ensures Fed(w, w2, env, path, Feeds) && path in w2.disk.folders && w2.disk.folders[path].parents == w.disk.folders[path].parents
    ensures Feed(w, env, path, es, broken, total).0 == Feed(w2, env, path, es[Width(es)..], broken, sum).0
  {
    hide Perform, Stream, StreamPlan, Feed, FromSlash, WhiteoutTarget, HeadOp, Fed, InScope, Intact, Classify, FileStream, WithHead, AllOk, Wrap64;
    var c := HeadCall(path, es);
    var w1 := Perform(w, env, c);
    Succeeds(w, env, c);
    HeadCallIs(path, es);
    HeadInScope(path, es);
    FedOne(w, env, path, Feeds, c);
    if Classify(es[0].hdr) == File {
      FeedFile(w, env, path, es, broken, total);
      StreamFed(w1, env, path, es, broken);
      AddEffect(w, env, path, FromSlash(es[0].hdr.name), es[0].hdr.info.value);
      sum := Wrap64(total + FileSize(es[0].hdr));
      w2 := Stream(w1, env, path, es, broken).0;
      StreamOk(w1, env, path, es, broken);
      FedWiden(w1, w2, env, path, Streams, Feeds);
      FedThen(w, w1, w2, env, path, Feeds);
    } else {
      FeedSimple(w, env, path, es, broken, total, c);
      SimpleHead(w, env, path, es, c);
      w2, sum := Perform(w1, env, Next), total;
      HeadKeeps(w.disk.folders[path], es);
      NextInScope(path, Feeds);
      FedOne(w1, env, path, Feeds, Next);
      FedThen(w, w1, w2, env, path, Feeds);
    }
  }

  lemma HeadInScope(path: string, es: seq<Entry>)
    requires es != [] && (Classify(es[0].hdr) == File ==> es[0].hdr.info.Some?)
    ensures InScope(HeadCall(path, es), path, Feeds)
  {
    hide FileStream, RootFile, FromSlash, WhiteoutTarget;
  }

  lemma HeadKeeps(f: Folder, es: seq<Entry>)
    requires es != []
    ensures Bare(WithHead(f, es)).parents == f.parents
  {
    hide HeadOp;
  }

  /** Without failures the stream of a readable file with an entry behind it hands back the header of that entry. */
  lemma StreamOk(w: World, env: Env, path: string, es: seq<Entry>, broken: bool)
    requires FailureFree(env) && es != [] && Classify(es[0].hdr) == File && Intact(es) && es[Width(es)..] != []
    requires Ready(w.disk, Sink(path, None))
    ensures var (w', end) := Stream(w, env, path, es, broken);
            && end == More && StreamPlan(es, broken).rest == es[Width(es)..]
            && path in w'.disk.folders && w'.disk.folders[path].parents == w.disk.folders[path].parents
  {
    hide Stream, StreamPlan, Intact, FileStream, Flatten, AllOk, WriteFailed;
    StreamDelivers(w, env, path, es, broken);
    StreamPlanMeans(es, broken);
    StreamFed(w, env, path, es, broken);
    var w' := Stream(w, env, path, es, broken).0;
    FedWiden(w, w', env, path, Streams, Feeds);
    var cs :| AllInScope(cs, path, Feeds) && w' == RunCalls(w, env, cs);
    FedOk(w, env, path, cs);
    WriteFailedNotOk(w, w');
  }

  /** If the loop can get to an entry of the marker's name, a willing environment takes it there. */
  lemma {:induction false} FeedForges(w: World, text: string, path: string, es: seq<Entry>, broken: bool, total: int) returns (v: World)
    requires path in w.disk.folders && w.disk.folders[path].parents == [] && ReachesMarker(es)
    ensures Fed(w, v, Willing(text), path, Feeds) && Forged(v.disk, path, text)
    ensures Extends(v, Feed(w, Willing(text), path, es, broken, total).0)
    decreases |es|
  {
    hide Perform, Feed, Fed, HeadOp, HeadSound, RootFile, InScope, Classify, FromSlash, Forged, Extends;
    var env := Willing(text);
    if NamesMarker(es) {
      v := Perform(w, env, HeadCall(path, es));
      AddForges(w, text, path, es);
      HeadInScope(path, es);
      FedOne(w, env, path, Feeds, HeadCall(path, es));
      FeedGoesOn(w, env, path, es, broken, total);
    } else {
      var w2, sum := HeadTaken(w, env, path, es, broken, total);
      v := FeedForges(w2, text, path, es[Width(es)..], broken, sum);
      FedThen(w, w2, v, env, path, Feeds);
    }
  }

  /** The run up to the loop. */
  lemma RunBegins(text: string, job: Job) returns (w: World)
    ensures OnTrack(World(EMPTY, []), w, job, false) && Feeding(w.disk, job)
    ensures Extends(Feed(w, Willing(text), job.path, job.tape.entries, job.tape.broken, 0).0,
                    UnpackRun(World(EMPTY, []), Willing(text), job).0)
  {
    hide Perform, Feed, OnTrack, Clear, FormatInt;
    var env, start := Willing(text), World(EMPTY, []);
    TrackStart(start, job);
    StepQuiet(start, start, env, LayerExists(job.path), job, false);
    ReplyOf(start, env, LayerExists(job.path));
    var w1 := Perform(start, env, LayerExists(job.path));
    StepQuiet(start, w1, env, EnablePrivileges, job, false);
    var w2 := Perform(w1, env, EnablePrivileges);
    Succeeds(w1, env, EnablePrivileges);
    BeginSafe(start, w2, env, job);
    var w3 := Perform(w2, env, MkdirAll(job.path));
    Succeeds(w2, env, MkdirAll(job.path));
    var w4 := Perform(w3, env, NewWriter(job.path, job.parents));
    Succeeds(w3, env, NewWriter(job.path, job.parents));
    var w5 := Perform(w4, env, SetReader);
    StepQuiet(start, w5, env, Next, job, false);
    w := Perform(w5, env, Next);
    FillExtends(w5, env, job);
    var w6 := Feed(w, env, job.path, job.tape.entries, job.tape.broken, 0).0;
    var w7 := Fill(w5, env, job).0;
    ThreeMore(w7, env, job.path);
    TraceThen(w6, w7, Perform(Perform(Perform(w7, env, ResetReader), env, CloseWriter(job.path)), env, DisablePrivileges));
  }

  lemma FillExtends(w: World, env: Env, job: Job)
    ensures Extends(Feed(Perform(w, env, Next), env, job.path, job.tape.entries, job.tape.broken, 0).0, Fill(w, env, job).0)
  {
    hide Perform, Feed, FormatInt;
    var (w1, end, total) := Feed(Perform(w, env, Next), env, job.path, job.tape.entries, job.tape.broken, 0);
    ExtendsSelf(w1);
    TraceOne(w1, env, WriteFile(job.path, SIZE_FILE, FormatInt(total)));
  }

  lemma ThreeMore(w: World, env: Env, path: string)
    ensures Extends(w, Perform(Perform(Perform(w, env, ResetReader), env, CloseWriter(path)), env, DisablePrivileges))
  {
    hide Perform;
    var w1 := Perform(w, env, ResetReader);
    var w2 := Perform(w1, env, CloseWriter(path));
    TraceOne(w, env, ResetReader);
    TraceOne(w1, env, CloseWriter(path));
    TraceOne(w2, env, DisablePrivileges);
    TraceThen(w, w1, w2);
    TraceThen(w, w2, Perform(w2, env, DisablePrivileges));
  }

  /**
   Any archive that is not clear of the marker can forge it: for every int64 some run of it on the empty store, killed
   right after the entry is added, leaves a size file that says so, and every later run that can look returns it.
   */
  lemma MarkerForged(job: Job, size: int) returns (run: Run)
    requires !Clear(job) && IsInt64(size)
    ensures run.job == job
    ensures var d := AfterRun(EMPTY, run);
            && Forged(d, job.path, FormatInt(size))
            && forall env: Env, job': Job :: job'.path == job.path && env(0).ok && env(1).ok && env(2).ok ==>
                 UnpackRun(World(d, []), env, job').1 == Returned(size, false)
  {
    hide Feed, UnpackRun, OnTrack, ParseInt, FormatInt, Perform;
    var text := FormatInt(size);
    var w := RunBegins(text, job);
    var v := FeedForges(w, text, job.path, job.tape.entries, job.tape.broken, 0);
    ForgedOnTrack(w, v, text, job);
    var t := UnpackRun(World(EMPTY, []), Willing(text), job).0;
    TraceThen(v, Feed(w, Willing(text), job.path, job.tape.entries, job.tape.broken, 0).0, t);
    run := Run(Willing(text), job, Some(|v.trace|));
    assert CallsOf(EMPTY, run) == v.trace;
    ParseFormat(size);
    forall env: Env, job': Job | job'.path == job.path && env(0).ok && env(1).ok && env(2).ok
      ensures UnpackRun(World(v.disk, []), env, job').1 == Returned(size, false)
    {
      Cached(v.disk, env, job');
    }
  }

  lemma ForgedOnTrack(w: World, v: World, text: string, job: Job)
    requires !Clear(job) && OnTrack(World(EMPTY, []), w, job, false) && Feeding(w.disk, job)
    requires Fed(w, v, Willing(text), job.path, Feeds)
    ensures v.disk == Replay(EMPTY, v.trace)
  {
    hide Clear, AllSafe, InScope;
    var cs :| AllInScope(cs, job.path, Feeds) && v == RunCalls(w, Willing(text), cs);
    FedSafe(World(EMPTY, []), w, Willing(text), cs, job);
    assert v.trace[0..] == v.trace;
  }

  /** The runs of a job that start without a marker leave one only on a complete layer. */
  ghost predicate Honest(job: Job) {
    forall d: Disk, run: Run :: run.job == job && !Marked(d, job.path) && Marked(AfterRun(d, run), job.path) ==>
      Complete(AfterRun(d, run).folders[job.path], job)
  }

  /** The marker can be trusted exactly if the archive is clear of its name. */
  lemma ClearExact(job: Job)
    ensures Honest(job) <==> Clear(job)
  {
    hide Clear, CallsOf, Sound, Filled, FormatInt, TotalSize, ParseInt;
    if Clear(job) {
      forall d: Disk, run: Run | run.job == job && !Marked(d, job.path) && Marked(AfterRun(d, run), job.path)
        ensures Complete(AfterRun(d, run).folders[job.path], job)
      {
        RunIsSafe(d, run);
      }
    } else {
      var total := Wrap64(TotalSize(job.tape.entries));
      var size := if total == 0 then 1 else 0;
      var run := MarkerForged(job, size);
      ParseFormat(size);
      ParseFormat(total);
      FinishedMeans(job);
      var f := AfterRun(EMPTY, run).folders[job.path];
      assert f.(sealed := true).files[SIZE_FILE] != Finished(job).files[SIZE_FILE];
      assert !Complete(f, job);
    }
  }
}
