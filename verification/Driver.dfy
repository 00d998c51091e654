/**
 The driver object: the methods of driver/unpack.go, bundle.go, delete.go, stats.go and write_metadata.go, each
 proved to do exactly what the function that specifies its run says. Deferred calls stand after the part of the
 method they guard, which is a method of its own.
 */
module DriverObject {
  import opened GoBase
  import opened WinPath
  import opened Tar
  import opened Machine
  import opened Hcs
  import opened Tarstream
  import opened Unpack
  import opened Bundle
  import opened Quota
  import opened Volumes
  import opened Limiting
  import Discipline
  import Runs
  import Outcomes

  class Driver {
    const store: string
    const host: Host
    const client: Client
    const streamer: Streamer
    const limiter: Limiter

    constructor (store: string, host: Host, client: Client, streamer: Streamer, limiter: Limiter)
      ensures this.store == store && this.host == host && this.client == client && this.streamer == streamer
      ensures this.limiter == limiter
    {
      this.store, this.host, this.client, this.streamer, this.limiter := store, host, client, streamer, limiter;
    }

    predicate Valid()
      reads streamer
    {
      client.host == host && limiter.host == host && streamer.host == host && streamer.Valid()
    }

    /** The loop that prepends one folder per ID. */
    method LayerFolders(ids: seq<string>) returns (folders: seq<string>)
      ensures folders == FolderList(store, ids)
      ensures |folders| == |ids| && forall i :: 0 <= i < |ids| ==> folders[i] == LayerPath(store, ids[|ids| - 1 - i])
    {
      folders := [];
      for i := 0 to |ids|
        invariant folders == FolderList(store, ids[..i])
      {
        assert ids[..i + 1][..i] == ids[..i];
        folders := [LayerPath(store, ids[i])] + folders;
      }
      assert ids[..|ids|] == ids;
      FolderListReverses(store, ids);
    }

    method Unpack(layerID: string, parentIDs: seq<string>, tape: Tape) returns (r: Result)
      requires Valid()
      modifies host, streamer
      ensures Valid()
      ensures store == "" ==> r == FAIL && host.View() == old(host.View())
      ensures store != "" ==>
                (host.View(), r) == UnpackRun(old(host.View()), host.env, Job(LayerPath(store, layerID), FolderList(store, parentIDs), tape))
      ensures store != "" ==>
                && Extends(old(host.View()), host.View())
                && Discipline.Scan(Since(old(host.View()), host.View())) in {Discipline.Outside, Discipline.Released}
                && Runs.RunOutcome(old(host.View()), host.View(), r, Job(LayerPath(store, layerID), FolderList(store, parentIDs), tape))
                && (!Runs.Marked(old(host.disk), LayerPath(store, layerID)) ==>
                      Outcomes.EndsAs(old(host.View()), host.View(), r, Job(LayerPath(store, layerID), FolderList(store, parentIDs), tape)))
    {
      hide Elevated, LayerPath, Outcomes.EndsAs, Runs.OnTrack;
      if store == "" {
        return FAIL;
      }
      ghost var job := Job(LayerPath(store, layerID), FolderList(store, parentIDs), tape);
      Discipline.UnpackDisciplined(host.View(), host.env, job);
      Runs.RunSafe(host.View(), host.env, job);
      if !Runs.Marked(host.disk, job.path) { Outcomes.UnpackExact(host.View(), host.env, job); }
      var path := LayerPath(store, layerID);
      var exists' := host.Do(LayerExists(path));
      if !exists'.ok {
        return FAIL;
      }
      var e := host.Do(EnablePrivileges);
      if !e.ok {
        return FAIL;
      }
      r := UnpackElevated(path, parentIDs, tape, exists'.found);
      e := host.Do(DisablePrivileges);
    }

    method UnpackElevated(path: string, parentIDs: seq<string>, tape: Tape, exists': bool) returns (r: Result)
      requires Valid()
      modifies host, streamer
      ensures Valid()
      ensures (host.View(), r) == Elevated(old(host.View()), host.env, Job(path, FolderList(store, parentIDs), tape), exists')
    {
      hide Build, DestroyRun, ParseInt, Apply;
      if exists' {
        var e := host.Do(ReadFile(path, SIZE_FILE));
        if !e.ok {
          return FAIL;
        }
        if e.found {
          var (size, ok) := ParseInt(e.text);
          return Returned(size, !ok);
        }
        var status := client.DestroyLayer(path);
        if status == Err {
          return FAIL;
        }
        if status == Panic {
          return Result.Panicked;
        }
      }
      r := UnpackBuild(path, parentIDs, tape);
    }

    method UnpackBuild(path: string, parentIDs: seq<string>, tape: Tape) returns (r: Result)
      requires Valid()
      modifies host, streamer
      ensures Valid()
      ensures (host.View(), r) == Build(old(host.View()), host.env, Job(path, FolderList(store, parentIDs), tape))
    {
      hide Fill, Apply;
      var e := host.Do(MkdirAll(path));
      if !e.ok {
        return FAIL;
      }
      var parents := LayerFolders(parentIDs);
      e := host.Do(NewWriter(path, parents));
      if !e.ok {
        return FAIL;
      }
      streamer.SetReader(tape);
      r := UnpackFill(path, parents, tape);
      streamer.ClearReader();
      e := host.Do(CloseWriter(path));
    }

    /** The look-ahead loop of driver/unpack.go:85-118. */
    method UnpackFill(path: string, ghost parents: seq<string>, tape: Tape) returns (r: Result)
      requires Valid() && streamer.rest == tape.entries && streamer.broken == tape.broken && !streamer.onEntry
      modifies host, streamer
      ensures Valid()
      ensures (host.View(), r) == Fill(old(host.View()), host.env, Job(path, parents, tape))
    {
      hide Perform, Stream, StreamPlan, Classify, FromSlash, WhiteoutTarget;
      ghost var goal := Feed(Perform(host.View(), host.env, Next), host.env, path, tape.entries, tape.broken, 0);
      var hdr: Option<Header>, next, total := None, More, 0;
      while next == More
        invariant Valid() && streamer.broken == tape.broken
        invariant hdr.None? && next == More ==>
                    && goal == Feed(Perform(host.View(), host.env, Next), host.env, path, streamer.rest, tape.broken, total)
                    && !streamer.onEntry
        invariant hdr.Some? ==> streamer.onEntry && streamer.rest[0].hdr == hdr.value
        invariant hdr.Some? && next == More ==> goal == Feed(host.View(), host.env, path, streamer.rest, tape.broken, total)
        invariant next != More ==> goal.0 == host.View() && goal.1 == next && (next == Eof ==> goal.2 == total)
        decreases next == More, |streamer.rest| + if hdr.None? then 1 else 0
      {
        if hdr.None? {
          next := streamer.Next();
        } else {
          var h := hdr.value;
          var kind := Classify(h);
          if kind == Whiteout {
            ClassifyWhiteout(h);
            var e := host.Do(Remove(path, WhiteoutTarget(h.name)));
            if !e.ok {
              return FAIL;
            }
            next := streamer.Next();
          } else if kind == HardLink {
            var e := host.Do(AddLink(path, FromSlash(h.name), FromSlash(h.linkname)));
            if !e.ok {
              return FAIL;
            }
            next := streamer.Next();
          } else {
            if h.info.None? {
              return FAIL;
            }
            var e := host.Do(Add(path, FromSlash(h.name), h.info.value));
            if !e.ok {
              return FAIL;
            }
            PlanShape(streamer.rest, streamer.broken);
            next := streamer.WriteBackupStreamFromTarFile(path);
            total := Wrap64(total + FileSize(h));
          }
        }
        hdr := if next == More then Some(streamer.rest[0].hdr) else None;
      }
      if next != Eof {
        return FAIL;
      }
      var e := host.Do(WriteFile(path, SIZE_FILE, FormatInt(total)));
      r := Returned(total, !e.ok);
    }

    method Bundle(bundleID: string, layerIDs: seq<string>, diskLimit: int) returns (o: Outcome, folders: seq<string>)
      requires Valid()
      modifies host
      ensures store == "" ==> o == Refused && host.View() == old(host.View())
      ensures store != "" ==>
                (host.View(), o) == BundleRun(Order(VolumeStore(store), VolumePath(store, bundleID), FolderList(store, layerIDs), diskLimit),
                                              old(host.View()), host.env)
      ensures store != "" ==>
                && Extends(old(host.View()), host.View())
                && Tells(Order(VolumeStore(store), VolumePath(store, bundleID), FolderList(store, layerIDs), diskLimit),
                         Since(old(host.View()), host.View()), o)
      ensures o.Success? ==> folders == FolderList(store, layerIDs)
      ensures o.Success? && VolumePath(store, bundleID) != VolumeStore(store) && IsInt64(diskLimit) ==>
                At(host.disk, VolumePath(store, bundleID)) == Some(FRESH.(stage := Prepared, parents := folders))
    {
      hide RunFrom, Perform, VolumePath, VolumeStore, CreateRun, DestroyFrom, Tells, CreateTells;
      folders := [];
      if store == "" {
        return Refused, [];
      }
      var home, path := VolumeStore(store), VolumePath(store, bundleID);
      ghost var order := Order(home, path, FolderList(store, layerIDs), diskLimit);
      BundleReads(order, host.View(), host.env);
      if path != home && IsInt64(diskLimit) { BundleAllOrNothing(order, host.View(), host.env); }
      RunStep(order, host.View(), AtMkdir, host.env);
      var e := host.Do(MkdirAll(home));
      if !e.ok {
        RunEnds(order, host.View(), Refused, host.env);
        return Refused, [];
      }
      RunStep(order, host.View(), AtCheck, host.env);
      e := host.Do(LayerExists(path));
      if !e.ok {
        RunEnds(order, host.View(), Refused, host.env);
        return Refused, [];
      }
      if e.found {
        RunEnds(order, host.View(), AlreadyExists, host.env);
        return AlreadyExists, [];
      }
      folders := LayerFolders(layerIDs);
      RunCreates(order, host.View(), host.env);
      var created := client.CreateLayer(path, folders);
      if !created {
        o := CleanupLayer(order, path, CreateFailed);
        return;
      }
      o := FinishBundle(order, path, diskLimit);
    }

    /** From the mount path on, driver/bundle.go:49-61. */
    method FinishBundle(ghost order: Order, path: string, diskLimit: int) returns (o: Outcome)
      requires Valid() && path == order.path && diskLimit == order.limit
      modifies host
      ensures (host.View(), o) == RunFrom(order, old(host.View()), AtMount, host.env)
    {
      hide RunFrom, Perform;
      RunStep(order, host.View(), AtMount, host.env);
      var e := host.Do(GetMountPath(path));
      if !e.ok {
        o := CleanupLayer(order, path, MountFailed);
        return;
      }
      var volume := e.text;
      if volume == "" {
        o := CleanupLayer(order, path, NoMountPath);
        return;
      }
      RunStep(order, host.View(), AtQuota(volume), host.env);
      var ok := limiter.SetQuota(volume, ToUint64(diskLimit));
      if !ok {
        o := CleanupLayer(order, path, QuotaFailed);
        return;
      }
      o := Success(volume);
      RunEnds(order, host.View(), o, host.env);
    }

    /** The cleanup closure of driver/bundle.go:37-42; an error of DestroyLayer is only logged. */
    method CleanupLayer(ghost order: Order, path: string, cause: Cause) returns (o: Outcome)
      requires Valid() && path == order.path
      modifies host
      ensures (host.View(), o) == RunFrom(order, old(host.View()), AtUnprepare(cause, 3), host.env)
    {
      hide RunFrom, DestroyFrom;
      RunDestroys(order, host.View(), host.env, cause, 3);
      var status := client.DestroyLayer(path);
      o := CleanupOutcome(cause, status);
    }

    method Delete(bundleID: string) returns (status: Status)
      requires Valid()
      modifies host
      ensures store == "" ==> status == Err && host.View() == old(host.View())
      ensures store != "" ==> (host.View(), status) == DeleteRun(old(host.View()), host.env, VolumePath(store, bundleID))
      ensures store != "" && status == Nil ==> VolumePath(store, bundleID) !in host.disk.folders
      ensures store != "" ==>
                && Extends(old(host.View()), host.View())
                && DeleteTells(old(host.disk), Since(old(host.View()), host.View()), VolumePath(store, bundleID), status)
    {
      hide DestroyFrom, VolumePath, DeleteTells, Destroys;
      DeleteReads(host.View(), host.env, VolumePath(store, bundleID));
      if store == "" {
        return Err;
      }
      var path := VolumePath(store, bundleID);
      var e := host.Do(LayerExists(path));
      if !e.ok {
        return Err;
      }
      if !e.found {
        return Nil;
      }
      status := client.DestroyLayer(path);
    }

    method WriteMetadata(bundleID: string, size: int) returns (ok: bool)
      requires Valid()
      modifies host
      ensures (host.View(), ok) == WriteMetadataRun(old(host.View()), host.env, VolumePath(store, bundleID), size)
      ensures ok ==>
                && HasFile(host.disk, VolumePath(store, bundleID), "metadata.json")
                && host.disk.folders[VolumePath(store, bundleID)].files["metadata.json"] == Marshal(size)
    {
      hide VolumePath, Marshal;
      var e := host.Do(WriteFile(VolumePath(store, bundleID), METADATA_FILE, Marshal(size)));
      ok := e.ok;
    }

    method Stats(bundleID: string, decode: Decoder) returns (s: Stats)
      requires Valid()
      modifies host
      ensures (host.View(), s) == StatsRun(old(host.View()), host.env, VolumePath(store, bundleID), decode)
      ensures host.disk == old(host.disk) && Extends(old(host.View()), host.View())
      ensures StatsTells(Since(old(host.View()), host.View()), VolumePath(store, bundleID), decode, s)
    {
      hide VolumePath, Apply, StatsTells;
      StatsReads(host.View(), host.env, VolumePath(store, bundleID), decode);
      var path := VolumePath(store, bundleID);
      var e := host.Do(GetMountPath(path));
      if !e.ok {
        return StatsFailed;
      }
      if e.text == "" {
        return MissingPath;
      }
      var used, ok := limiter.GetQuotaUsed(e.text);
      if !ok {
        return StatsFailed;
      }
      e := host.Do(ReadFile(path, METADATA_FILE));
      if !e.ok || !e.found {
        return StatsFailed;
      }
      var size := decode(e.text);
      if size.None? {
        return StatsFailed;
      }
      s := Usage(size.value, used);
    }
  }

  lemma ClassifyWhiteout(h: Header)
    requires Classify(h) == Whiteout
    ensures IsWhiteout(h.name)
  {
  }
}
