/**
 Histories of a store: any number of operations on layers and volumes, each with its own failures and each possibly
 killed between two calls. What the size file of a layer then stands for, what one more run of `Unpack` does, and
 what the operations leave of each other.
 */
module Histories {
  import opened GoBase
  import opened WinPath
  import opened Tar
  import opened Machine
  import opened Unpack
  import opened Runs
  import opened Volumes
  import opened Quota

  /** One run of `Unpack`: its environment, its layer and archive, and after how many calls it is killed, if at all. */
  datatype Run = Run(env: Env, job: Job, killed: Option<nat>)

  /** `Unpack`, or one of `Bundle`, `Delete` and `WriteMetadata`. */
  datatype Action = OnLayer(run: Run) | OnVolume(deed: Deed)

  /** The calls the run makes before it ends or is killed. */
  function CallsOf(d: Disk, run: Run): seq<Event> { Until(UnpackRun(World(d, []), run.env, run.job).0.trace, run.killed) }

  function AfterRun(d: Disk, run: Run): Disk { Replay(d, CallsOf(d, run)) }

  function After(store: string, d: Disk, a: Action): Disk {
    match a
    case OnLayer(run) => AfterRun(d, run)
    case OnVolume(deed) => AfterDeed(store, d, deed)
  }

  function History(store: string, d: Disk, h: seq<Action>): Disk {
    if h == [] then d else After(store, History(store, d, h[..|h| - 1]), h[|h| - 1])
  }

  lemma RunIsSafe(d: Disk, run: Run)
    ensures Safe(d, CallsOf(d, run), run.job)
  {
    hide UnpackRun, Safe, Complete, Replay, Clear;
    var w := World(d, []);
    RunSafe(w, run.env, run.job);
    var t := UnpackRun(w, run.env, run.job).0.trace;
    assert t[..|t|] == t && t[0..] == t;
    PrefixSafe(d, t, run.job, if run.killed.Some? && run.killed.value < |t| then run.killed.value else |t|);
  }

  /** A run that is not killed leaves the disk its world has. */
  lemma WholeRun(d: Disk, env: Env, job: Job)
    ensures AfterRun(d, Run(env, job, None)) == UnpackRun(World(d, []), env, job).0.disk
  {
    hide UnpackRun, AllSafe, Complete, Clear;
    RunSafe(World(d, []), env, job);
    var t := UnpackRun(World(d, []), env, job).0.trace;
    assert t[0..] == t;
  }

  // ---------------------------------------------------- the commit marker

  /** No operation on a volume works in the folder `path`. */
  predicate Spares(store: string, h: seq<Action>, path: string) {
    forall k :: 0 <= k < |h| && h[k].OnVolume? ==> path != VolumePath(store, h[k].deed.id) && path != VolumeStore(store)
  }

  /** Every operation names one folder: bundle IDs are single components, and so are layer IDs. */
  ghost predicate Named(store: string, h: seq<Action>) {
    forall k :: 0 <= k < |h| ==>
      match h[k]
      case OnLayer(run) => exists id :: SingleName(id) && run.job.path == LayerPath(store, id)
      case OnVolume(deed) => SingleName(deed.id)
  }

  /** With such IDs the volumes never get in the way of a layer. */
  lemma SparesLayers(store: string, h: seq<Action>, id: string)
    requires GoodStore(store) && SingleName(id) && Named(store, h)
    ensures Spares(store, h, LayerPath(store, id))
  {
    hide VolumePath, VolumeStore, LayerPath, GoodStore, SingleName;
    forall k | 0 <= k < |h| && h[k].OnVolume?
      ensures LayerPath(store, id) != VolumePath(store, h[k].deed.id) && LayerPath(store, id) != VolumeStore(store)
    {
      FoldersDisjoint(store, id, h[k].deed.id);
    }
  }

  /** No archive unpacked into the folder names the marker. */
  predicate AllClear(h: seq<Action>, path: string) {
    forall k :: 0 <= k < |h| && h[k].OnLayer? && h[k].run.job.path == path ==> Clear(h[k].run.job)
  }

  /** What one action may do to the layer at `path`: nothing to a committed one, and it commits only by a whole build. */
  lemma ActionKeeps(store: string, d: Disk, a: Action, path: string)
    requires Spares(store, [a], path)
    ensures var d' := After(store, d, a);
            && (Marked(d, path) ==> At(d', path) == At(d, path))
            && (!Marked(d, path) && Marked(d', path) ==>
                  a.OnLayer? && a.run.job.path == path && (Clear(a.run.job) ==> Done(d', CallsOf(d, a.run), a.run.job)))
  {
    hide UnpackRun, Complete, VolumePath, VolumeStore, AfterDeed, CallsOf, Clear, Shut;
    assert [a][0] == a;
    match a
    case OnLayer(run) =>
      RunIsSafe(d, run);
      if run.job.path != path { ElsewhereKeeps(d, AfterRun(d, run), run.job.path, path); }
    case OnVolume(deed) => AfterDeedKeeps(store, d, deed, path);
  }

  lemma ElsewhereKeeps(d: Disk, d': Disk, path: string, q: string)
    requires Elsewhere(d, d', path) && q != path
    ensures At(d', q) == At(d, q)
  {
    assert q in d.folders <==> q in (d.folders - {path});
    assert q in d'.folders <==> q in (d'.folders - {path});
    if q in d.folders { assert (d.folders - {path})[q] == (d'.folders - {path})[q]; }
  }

  lemma RunElsewhere(d: Disk, run: Run, q: string)
    requires q != run.job.path
    ensures At(AfterRun(d, run), q) == At(d, q)
  {
    hide UnpackRun, Complete, CallsOf, Clear, At;
    RunIsSafe(d, run);
    ElsewhereKeeps(d, AfterRun(d, run), run.job.path, q);
  }

  lemma SparesParts(store: string, h: seq<Action>, path: string)
    requires h != [] && Spares(store, h, path)
    ensures Spares(store, h[..|h| - 1], path) && Spares(store, [h[|h| - 1]], path)
  {
    hide VolumePath, VolumeStore;
    assert forall k :: 0 <= k < |h| - 1 ==> h[..|h| - 1][k] == h[k];
  }

  /**
   The commit marker. After any history, wherever its operations failed or were killed: a layer that carries a size
   file was built by one of the runs from that run's whole archive, nothing has touched it since, and it is sealed
   exactly if that run got as far as a successful Close.
   */
  lemma {:induction false} CommitMarker(store: string, d: Disk, h: seq<Action>, path: string)
    requires Spares(store, h, path) && AllClear(h, path) && !Marked(d, path) && Marked(History(store, d, h), path)
    ensures exists k: nat :: Committer(store, d, h, path, k)
  {
    hide After, Complete, Spares, CallsOf, Shut, Clear;
    var init, a := h[..|h| - 1], h[|h| - 1];
    var before := History(store, d, init);
    SparesParts(store, h, path);
    ActionKeeps(store, before, a, path);
    if !Marked(before, path) {
      assert Clear(a.run.job);
      assert Committer(store, d, h, path, |h| - 1);
    } else {
      assert forall i :: 0 <= i < |init| ==> init[i] == h[i];
      CommitMarker(store, d, init, path);
      var k: nat :| Committer(store, d, init, path, k);
      assert h[k] == init[k] && h[..k] == init[..k];
      assert Committer(store, d, h, path, k);
    }
  }

  /** The layer at `path` is the one that the run at `k` built from its whole archive, sealed as far as that run got. */
  predicate Committer(store: string, d: Disk, h: seq<Action>, path: string, k: nat) {
    && k < |h| && h[k].OnLayer? && h[k].run.job.path == path
    && path in History(store, d, h).folders
    && var f := History(store, d, h).folders[path];
       && Complete(f, h[k].run.job)
       && (f.sealed <==> Shut(CallsOf(History(store, d, h[..k]), h[k].run), path))
  }

  // ---------------------------------------------------- convergence

  /**
   All archives offered for a layer that can be read to their end are that layer's archive, on that layer's
   parents, as a chain ID promises. Nothing is said of archives that arrived truncated or corrupt.
   */
  predicate SameJob(h: seq<Action>, job: Job) {
    forall k :: 0 <= k < |h| && h[k].OnLayer? && Readable(h[k].run.job, job.path) ==> h[k].run.job == job
  }

  predicate Readable(job: Job, path: string) { job.path == path && Sound(job.tape.entries) && !job.tape.broken }

  /** After any history, the layer is not committed or is the one its archive describes. */
  lemma CommittedIsComplete(store: string, h: seq<Action>, job: Job)
    requires SameJob(h, job) && Spares(store, h, job.path) && AllClear(h, job.path)
    ensures var d := History(store, EMPTY, h); Marked(d, job.path) ==> Complete(d.folders[job.path], job)
  {
    hide History, Sound, Finished, Spares, AllClear, CallsOf, Shut;
    if Marked(History(store, EMPTY, h), job.path) {
      CommitMarker(store, EMPTY, h, job.path);
      var k: nat :| Committer(store, EMPTY, h, job.path, k);
      assert Readable(h[k].run.job, job.path);
    }
  }

  /**
   Convergence. After any history on an empty store, one failure-free run returns the same size and leaves the
   same committed layer as a failure-free run on the empty store. The one thing a history can spoil is the
   seal: it is missing exactly if the layer was already committed without it.
   */
  lemma Convergence(store: string, h: seq<Action>, env: Env, job: Job)
    requires FailureFree(env) && SameJob(h, job) && Spares(store, h, job.path) && AllClear(h, job.path)
    requires Sound(job.tape.entries) && !job.tape.broken
    ensures var (w, r) := UnpackRun(World(EMPTY, []), env, job); Reached(w, r, job, true)
    ensures var before := History(store, EMPTY, h);
            var (w, r) := UnpackRun(World(before, []), env, job);
            Reached(w, r, job, Marked(before, job.path) ==> before.folders[job.path].sealed)
  {
    hide UnpackRun, Sound, Reached, History, Complete, Spares, SameJob, AllClear;
    CommittedIsComplete(store, h, job);
    ConvergesFrom(EMPTY, env, job);
    ConvergesFrom(History(store, EMPTY, h), env, job);
  }

  // ---------------------------------------------------- the cache

  /** Nothing undoes a commit: through any history the layer stays exactly as it is. */
  lemma {:induction false} MarkerStays(store: string, d: Disk, h: seq<Action>, path: string)
    requires Spares(store, h, path) && Marked(d, path)
    ensures At(History(store, d, h), path) == At(d, path)
  {
    hide After, Spares, CallsOf, Complete, Clear;
    if h != [] {
      SparesParts(store, h, path);
      MarkerStays(store, d, h[..|h| - 1], path);
      ActionKeeps(store, History(store, d, h[..|h| - 1]), h[|h| - 1], path);
    }
  }

  /**
   Once a run has succeeded, every later run of that layer that can look at it returns the same size and changes
   nothing, whatever archive it is offered and whatever has been done to the store in between.
   */
  lemma CacheAgrees(store: string, d: Disk, env: Env, job: Job, h: seq<Action>, env': Env, job': Job)
    requires job'.path == job.path && env'(0).ok && env'(1).ok && env'(2).ok && Spares(store, h, job.path)
    ensures var (w, r) := UnpackRun(World(d, []), env, job);
            var d' := History(store, w.disk, h);
            var (w', r') := UnpackRun(World(d', []), env', job');
            r.Returned? && !r.failed ==> r' == r && w'.disk == d'
  {
    hide UnpackRun, TotalSize, Filled, ParseInt, OnTrack, History, Spares, Clear;
    var (w, r) := UnpackRun(World(d, []), env, job);
    if r.Returned? && !r.failed {
      RunSafe(World(d, []), env, job);
      MarkerStays(store, w.disk, h, job.path);
      Cached(History(store, w.disk, h), env', job');
      if !Marked(d, job.path) {
        FinishedMeans(job);
        ParseFormat(r.size);
      }
    }
  }

  // ---------------------------------------------------- isolation

  /** Some run of the history unpacks into this folder. */
  predicate Unpacks(h: seq<Action>, path: string) { exists k :: 0 <= k < |h| && h[k].OnLayer? && h[k].run.job.path == path }

  /** Some operation of the history works on this bundle. */
  predicate WorksOn(h: seq<Action>, id: string) { exists k :: 0 <= k < |h| && h[k].OnVolume? && h[k].deed.id == id }

  /**
   Isolation. In any history, with any failures and kills, a layer folder changes only if `Unpack` ran for that layer,
   so sequences of Bundle, Delete and WriteMetadata change none, and a volume only if an operation named that bundle.
   */
  lemma {:induction false} HistoryIsolated(store: string, d: Disk, h: seq<Action>, id: string)
    requires GoodStore(store) && SingleName(id) && Named(store, h)
    ensures !Unpacks(h, LayerPath(store, id)) ==> At(History(store, d, h), LayerPath(store, id)) == At(d, LayerPath(store, id))
    ensures !WorksOn(h, id) ==> At(History(store, d, h), VolumePath(store, id)) == At(d, VolumePath(store, id))
  {
    hide VolumePath, VolumeStore, LayerPath, AfterDeed, AfterRun, At, GoodStore, SingleName;
    if h != [] {
      var init, a := h[..|h| - 1], h[|h| - 1];
      assert forall k :: 0 <= k < |init| ==> init[k] == h[k];
      assert Unpacks(init, LayerPath(store, id)) ==> Unpacks(h, LayerPath(store, id));
      assert WorksOn(init, id) ==> WorksOn(h, id);
      HistoryIsolated(store, d, init, id);
      ActionIsolated(store, History(store, d, init), a, id);
    }
  }

  lemma ActionIsolated(store: string, d: Disk, a: Action, id: string)
    requires GoodStore(store) && SingleName(id) && Named(store, [a])
    ensures !(a.OnLayer? && a.run.job.path == LayerPath(store, id)) ==> At(After(store, d, a), LayerPath(store, id)) == At(d, LayerPath(store, id))
    ensures !(a.OnVolume? && a.deed.id == id) ==> At(After(store, d, a), VolumePath(store, id)) == At(d, VolumePath(store, id))
  {
    hide VolumePath, VolumeStore, LayerPath, AfterDeed, AfterRun, At, GoodStore, SingleName;
    assert [a][0] == a;
    match a
    case OnLayer(run) =>
      if run.job.path != LayerPath(store, id) { RunElsewhere(d, run, LayerPath(store, id)); }
      var layer :| SingleName(layer) && run.job.path == LayerPath(store, layer);
      FoldersDisjoint(store, layer, id);
      RunElsewhere(d, run, VolumePath(store, id));
    case OnVolume(deed) =>
      FoldersDisjoint(store, id, deed.id);
      AfterDeedKeeps(store, d, deed, LayerPath(store, id));
      if deed.id != id { AfterDeedKeeps(store, d, deed, VolumePath(store, id)); }
  }

  /** The operation at `k` is a `Bundle` with this limit that was given the mount path. */
  predicate Limits(store: string, d: Disk, h: seq<Action>, k: nat, volume: string, limit: int) {
    && k < |h| && h[k].OnVolume? && h[k].deed.act.Create? && limit == LimitSent(h[k].deed.act.limit)
    && Granted(DeedCalls(store, History(store, d, h[..k]), h[k].deed), volume)
  }

  /** In any history the quota of a mount path changes only by a `Bundle` that was given that path, and to its limit. */
  lemma {:induction false} HistoryQuotas(store: string, d: Disk, h: seq<Action>, volume: string)
    ensures var now := QuotaAt(History(store, d, h), volume);
            now == QuotaAt(d, volume) || (now.Some? && exists k: nat :: Limits(store, d, h, k, volume, now.value))
  {
    hide AfterDeed, AfterRun, QuotaAt, Granted, DeedCalls, LimitSent;
    if h != [] {
      var init, a := h[..|h| - 1], h[|h| - 1];
      HistoryQuotas(store, d, init, volume);
      var before, now := History(store, d, init), QuotaAt(History(store, d, h), volume);
      ActionQuota(store, before, a, volume);
      if now == QuotaAt(before, volume) {
        if now != QuotaAt(d, volume) {
          var k: nat :| Limits(store, d, init, k, volume, now.value);
          assert h[k] == init[k] && h[..k] == init[..k];
          assert Limits(store, d, h, k, volume, now.value);
        }
      } else {
        assert Limits(store, d, h, |h| - 1, volume, now.value);
      }
    }
  }

  lemma ActionQuota(store: string, d: Disk, a: Action, volume: string)
    ensures var now := QuotaAt(After(store, d, a), volume);
            || now == QuotaAt(d, volume)
            || (&& a.OnVolume? && a.deed.act.Create? && Granted(DeedCalls(store, d, a.deed), volume)
                && now == Some(LimitSent(a.deed.act.limit)))
  {
    hide AfterDeed, CallsOf, Granted, DeedCalls, LimitSent, Clear, Complete;
    match a
    case OnLayer(run) => RunIsSafe(d, run);
    case OnVolume(deed) => DeedQuota(store, d, deed, volume);
  }
}
