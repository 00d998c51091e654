/** driver/stats.go and driver/write_metadata.go, and what one operation on a bundle leaves alone. */
module Volumes {
  import opened GoBase
  import opened WinPath
  import opened Machine
  import opened Hcs
  import opened Bundle
  import opened Quota

  const METADATA_FILE := "metadata.json"

  /** `json.Marshal` of the image metadata. */
  function Marshal(size: int): string { "{\"size\":" + FormatInt(size) + "}" }

  /** `json.Unmarshal` into the image metadata: any function that gives back what `Marshal` wrote. */
  type Decoder = string -> Option<int>

  ghost predicate Decodes(decode: Decoder) { forall n :: IsInt64(n) ==> decode(Marshal(n)) == Some(n) }

  function WriteMetadataRun(w: World, env: Env, path: string, size: int): (World, bool) {
    var w1 := Perform(w, env, WriteFile(path, METADATA_FILE, Marshal(size)));
    (w1, Last(w1).ok)
  }

  /** `MissingPath` is the error for an empty mount path. */
  datatype Stats = Stats(total: int, exclusive: int) | MissingPath | StatsFailed

  /** `TotalBytesUsed` and `ExclusiveBytesUsed` from the image size and the uint64 quota usage. */
  function Usage(size: int, used: int): Stats { Stats(Wrap64(size + Wrap64(used)), Wrap64(used)) }

  function StatsRun(w: World, env: Env, path: string, decode: Decoder): (World, Stats) {
    var w1 := Perform(w, env, GetMountPath(path));
    if !Last(w1).ok then (w1, StatsFailed)
    else if Last(w1).text == "" then (w1, MissingPath)
    else
      var w2 := Perform(w1, env, QueryQuota(Last(w1).text));
      if !Last(w2).ok then (w2, StatsFailed) else WithMetadata(w2, env, path, decode, Last(w2).number)
  }

  /** The metadata half of `Stats`, once the quota usage is known. */
  function WithMetadata(w: World, env: Env, path: string, decode: Decoder, used: int): (World, Stats) {
    var w1 := Perform(w, env, ReadFile(path, METADATA_FILE));
    if !Last(w1).ok || !Last(w1).found then (w1, StatsFailed)
    else
      var size := decode(Last(w1).text);
      if size.None? then (w1, StatsFailed) else (w1, Usage(size.value, used))
  }

  /**
   Both numbers are int64. Total minus exclusive is the image size modulo 2^64, always, and as integers exactly if
   the sum fits an int64. Usage is reported modulo 2^64, and as it is exactly below 2^63.
   */
  lemma UsageExact(size: int, used: int)
    requires IsInt64(size) && IsUint64(used)
    ensures var s := Usage(size, used);
            && IsInt64(s.total) && IsInt64(s.exclusive) && (s.exclusive - used) % TWO64 == 0
            && (s.total - s.exclusive - size) % TWO64 == 0
            && (s.total - s.exclusive == size <==> IsInt64(size + Wrap64(used)))
            && (s.exclusive == used <==> used < TWO63)
  {
    var s := Usage(size, used);
    assert s.total - s.exclusive - size == s.total - (size + Wrap64(used));
  }

  /**
   The calls of Stats decide its result. It gives numbers exactly if the mount path was answered and is not empty, the
   quota query succeeded, and the metadata was read, was there and decodes; it misses the path exactly if the mount
   path was answered and is empty; it fails in all other cases.
   */
  predicate StatsTells(t: seq<Event>, path: string, decode: Decoder, s: Stats) {
    && 1 <= |t| <= 3 && t[0].call == GetMountPath(path)
    && (|t| >= 2 <==> t[0].ok && t[0].text != "") && (|t| >= 2 ==> t[1].call == QueryQuota(t[0].text))
    && (|t| >= 3 <==> |t| >= 2 && t[1].ok) && (|t| >= 3 ==> t[2].call == ReadFile(path, "metadata.json"))
    && (s == MissingPath <==> t[0].ok && t[0].text == "")
    && (s.Stats? <==> |t| == 3 && t[2].ok && t[2].found && decode(t[2].text).Some?)
    && (s.Stats? ==> s == Usage(decode(t[2].text).value, t[1].number))
  }

  lemma StatsReads(w: World, env: Env, path: string, decode: Decoder)
    ensures var (w', s) := StatsRun(w, env, path, decode);
            Extends(w, w') && w'.disk == w.disk && StatsTells(Since(w, w'), path, decode, s)
  {
    hide Wrap64, Perform;
    var c1 := GetMountPath(path);
    var w1 := Perform(w, env, c1);
    TraceOne(w, env, c1);
    ReadEffect(w, env, c1);
    if Last(w1).ok && Last(w1).text != "" {
      var c2, c3 := QueryQuota(Last(w1).text), ReadFile(path, METADATA_FILE);
      var w2 := Perform(w1, env, c2);
      TraceOne(w1, env, c2);
      ReadEffect(w1, env, c2);
      TraceThen(w, w1, w2);
      assert w2.trace[..|w1.trace|][|w.trace|] == Last(w1);
      if Last(w2).ok {
        var w3 := Perform(w2, env, c3);
        TraceOne(w2, env, c3);
        ReadEffect(w2, env, c3);
        TraceThen(w, w2, w3);
        assert w3.trace[..|w2.trace|][|w.trace|] == Last(w1) && w3.trace[..|w2.trace|][|w1.trace|] == Last(w2);
      }
    }
  }

  /** WriteMetadata makes one call, with the encoded size, and succeeds exactly if that call does. */
  lemma MetadataReads(w: World, env: Env, path: string, size: int)
    ensures var (w', ok) := WriteMetadataRun(w, env, path, size);
            && Extends(w, w') && |Since(w, w')| == 1
            && Since(w, w')[0].call == WriteFile(path, "metadata.json", Marshal(size)) && ok == Since(w, w')[0].ok
  {
    hide Marshal, Perform;
    TraceOne(w, env, WriteFile(path, METADATA_FILE, Marshal(size)));
  }

  /**
   Bundle, WriteMetadata, Stats: with no disk limit and no earlier quota on the mount path, the bundle uses nothing
   of its own and the total is the image size. With a limit, the total is the image size plus what is used.
   */
  lemma StatsAfterBundle(order: Order, d: Disk, env: Env, size: int, env': Env, env'': Env, decode: Decoder)
    requires order.path != order.home && IsInt64(order.limit) && IsInt64(size) && Decodes(decode)
    requires BundleRun(order, World(d, []), env).1.Success?
    requires env'(0).ok && env''(0).ok && env''(1).ok && env''(2).ok
    requires env''(0).text == BundleRun(order, World(d, []), env).1.volume
    ensures var (w1, o) := BundleRun(order, World(d, []), env);
            var (w2, ok) := WriteMetadataRun(World(w1.disk, []), env', order.path, size);
            var (w3, s) := StatsRun(World(w2.disk, []), env'', order.path, decode);
            && ok && w3.disk == w2.disk
            && s == (if order.limit == 0 && o.volume !in d.quotas then Stats(size, 0) else Usage(size, ToUint64(env''(1).number)))
  {
    hide BundleRun, Marshal, Perform, Usage;
    BundleAllOrNothing(order, World(d, []), env);
    var (w1, o) := BundleRun(order, World(d, []), env);
    var (w2, ok) := WriteMetadataRun(World(w1.disk, []), env', order.path, size);
    MetadataWritten(w1.disk, env', order.path, size);
    StatsRead(w2.disk, env'', order.path, decode, size);
    UsageZero(size);
  }

  lemma UsageZero(size: int)
    requires IsInt64(size)
    ensures Usage(size, 0) == Stats(size, 0)
  {
  }

  lemma MetadataWritten(d: Disk, env: Env, path: string, size: int)
    requires path in d.folders && env(0).ok
    ensures var (w, ok) := WriteMetadataRun(World(d, []), env, path, size);
            && ok && w.disk.quotas == d.quotas
            && HasFile(w.disk, path, METADATA_FILE) && w.disk.folders[path].files[METADATA_FILE] == Marshal(size)
  {
    hide Marshal;
  }

  lemma StatsRead(d: Disk, env: Env, path: string, decode: Decoder, size: int)
    requires HasFile(d, path, METADATA_FILE) && decode(d.folders[path].files[METADATA_FILE]) == Some(size)
    requires env(0).ok && env(0).text != "" && env(1).ok && env(2).ok
    ensures var (w, s) := StatsRun(World(d, []), env, path, decode);
            w.disk == d && s == Usage(size, if env(0).text in d.quotas then ToUint64(env(1).number) else 0)
  {
    hide Usage, Perform, WithMetadata;
    var w, q := World(d, []), QueryQuota(env(0).text);
    ReadEffect(w, env, GetMountPath(path));
    ReplyOf(w, env, GetMountPath(path));
    var a := Perform(w, env, GetMountPath(path));
    ReadEffect(a, env, q);
    ReplyOf(a, env, q);
    MetadataRead(Perform(a, env, q), env, path, decode, size, Last(Perform(a, env, q)).number);
  }

  lemma MetadataRead(w: World, env: Env, path: string, decode: Decoder, size: int, used: int)
    requires HasFile(w.disk, path, METADATA_FILE) && decode(w.disk.folders[path].files[METADATA_FILE]) == Some(size)
    requires env(|w.trace|).ok
    ensures var (w', s) := WithMetadata(w, env, path, decode, used); w'.disk == w.disk && s == Usage(size, used)
  {
    hide Usage, Perform;
    var m := ReadFile(path, METADATA_FILE);
    ReadEffect(w, env, m);
    ReplyOf(w, env, m);
  }

  // ---------------------------------------------------- what one operation leaves alone

  /** One operation on a bundle, its environment, and after how many calls it is killed, if at all. */
  datatype Deed = Deed(act: Act, id: string, env: Env, killed: Option<nat>)

  datatype Act = Create(layers: seq<string>, limit: int) | Delete | Describe(size: int)

  /** The calls the deed makes if it is not killed. */
  function TraceOf(store: string, d: Disk, deed: Deed): seq<Event> {
    var path, w := VolumePath(store, deed.id), World(d, []);
    match deed.act
    case Create(layers, limit) => BundleRun(Order(VolumeStore(store), path, layers, limit), w, deed.env).0.trace
    case Delete => DeleteRun(w, deed.env, path).0.trace
    case Describe(size) => WriteMetadataRun(w, deed.env, path, size).0.trace
  }

  /** The calls the deed makes before it ends or is killed. */
  function DeedCalls(store: string, d: Disk, deed: Deed): seq<Event> { Until(TraceOf(store, d, deed), deed.killed) }

  function AfterDeed(store: string, d: Disk, deed: Deed): Disk { Replay(d, DeedCalls(store, d, deed)) }

  /** A call that can only touch the folder `path` or make the folder `home`. */
  predicate Local(c: Call, path: string, home: string) {
    match c
    case LayerExists(_) => true
    case MkdirAll(p) => p == home
    case WriteFile(p, _, _) => p == path
    case OpenLock => true
    case CloseLock => true
    case CreateSandbox(p, _) => p == path
    case ActivateLayer(p) => p == path
    case PrepareLayer(p, _) => p == path
    case UnprepareLayer(p) => p == path
    case DeactivateLayer(p) => p == path
    case RemoveLayer(p) => p == path
    case GetMountPath(_) => true
    case CommitQuota(_, _) => true
    case _ => false
  }

  predicate AllLocal(t: seq<Event>, path: string, home: string) {
    forall i :: 0 <= i < |t| ==> Local(t[i].call, path, home)
  }

  lemma LocalStep(w: World, env: Env, c: Call, path: string, home: string)
    requires AllLocal(w.trace, path, home) && Local(c, path, home)
    ensures AllLocal(Perform(w, env, c).trace, path, home)
  {
  }

  lemma {:induction false} BundleLocal(order: Order, w: World, pc: Pc, env: Env)
    requires AllLocal(w.trace, order.path, order.home)
    ensures AllLocal(RunFrom(order, w, pc, env).0.trace, order.path, order.home)
    decreases Ahead(pc), Attempts(pc)
  {
    hide Perform, AllLocal;
    if !pc.Done? {
      var w' := Perform(w, env, Request(order, pc));
      LocalStep(w, env, Request(order, pc), order.path, order.home);
      BundleLocal(order, w', Resume(order, pc, Last(w')), env);
    }
  }

  lemma {:induction false} DestroyLocal(w: World, env: Env, path: string, home: string, n: nat)
    requires AllLocal(w.trace, path, home) && n >= 1
    ensures AllLocal(DestroyFrom(w, env, path, n).0.trace, path, home)
    decreases n
  {
    hide Perform, AllLocal, DestroyFrom;
    var w1 := Perform(w, env, UnprepareLayer(path));
    var w2 := Perform(w1, env, DeactivateLayer(path));
    LocalStep(w, env, UnprepareLayer(path), path, home);
    LocalStep(w1, env, DeactivateLayer(path), path, home);
    LocalStep(w2, env, RemoveLayer(path), path, home);
    DestroyStep(w, env, path, n);
    if n > 1 { DestroyLocal(Attempt(w, env, path), env, path, home, n - 1); }
  }

  lemma DeedLocal(store: string, d: Disk, deed: Deed)
    ensures AllLocal(TraceOf(store, d, deed), VolumePath(store, deed.id), VolumeStore(store))
  {
    hide VolumePath, VolumeStore, Perform, DestroyFrom, RunFrom, AllLocal;
    var path, home, w := VolumePath(store, deed.id), VolumeStore(store), World(d, []);
    assert AllLocal(w.trace, path, home) by { NothingLocal(path, home); }
    match deed.act
    case Create(layers, limit) => BundleLocal(Order(home, path, layers, limit), w, AtMkdir, deed.env);
    case Delete =>
      LocalStep(w, deed.env, LayerExists(path), path, home);
      DestroyLocal(Perform(w, deed.env, LayerExists(path)), deed.env, path, home, 3);
    case Describe(size) => LocalStep(w, deed.env, WriteFile(path, METADATA_FILE, Marshal(size)), path, home);
  }

  lemma NothingLocal(path: string, home: string)
    ensures AllLocal([], path, home)
  {
  }

  lemma {:induction false} LocalReplay(d: Disk, t: seq<Event>, path: string, home: string, q: string)
    requires AllLocal(t, path, home) && q != path && q != home
    ensures At(Replay(d, t), q) == At(d, q)
  {
    if t != [] {
      assert Local(t[|t| - 1].call, path, home);
      LocalReplay(d, t[..|t| - 1], path, home, q);
    }
  }

  lemma AfterDeedKeeps(store: string, d: Disk, deed: Deed, q: string)
    requires q != VolumePath(store, deed.id) && q != VolumeStore(store)
    ensures At(AfterDeed(store, d, deed), q) == At(d, q)
  {
    hide VolumePath, VolumeStore, TraceOf, At;
    DeedLocal(store, d, deed);
    var t := TraceOf(store, d, deed);
    LocalReplay(d, Until(t, deed.killed), VolumePath(store, deed.id), VolumeStore(store), q);
  }

  // ---------------------------------------------------- quotas

  function QuotaAt(d: Disk, volume: string): Option<int> { if volume in d.quotas then Some(d.quotas[volume]) else None }

  /** The calls were given this mount path. */
  predicate Granted(t: seq<Event>, volume: string) {
    exists i :: 0 <= i < |t| && t[i].call.GetMountPath? && t[i].ok && t[i].text == volume
  }

  /** Every quota committed has this limit and is for a mount path given before. */
  predicate Earned(t: seq<Event>, limit: int) {
    forall i :: 0 <= i < |t| && t[i].call.CommitQuota? ==> t[i].call.limit == limit && Granted(t[..i], t[i].call.volume)
  }

  lemma EarnedStep(t: seq<Event>, e: Event, limit: int)
    requires Earned(t, limit) && (e.call.CommitQuota? ==> e.call.limit == limit && Granted(t, e.call.volume))
    ensures Earned(t + [e], limit)
  {
    hide Granted;
    assert forall i :: 0 <= i < |t| ==> (t + [e])[i] == t[i] && (t + [e])[..i] == t[..i];
    assert (t + [e])[..|t|] == t;
  }

  lemma GrantedStep(t: seq<Event>, e: Event, volume: string)
    requires Granted(t, volume) || (e.call.GetMountPath? && e.ok && e.text == volume)
    ensures Granted(t + [e], volume)
  {
    assert forall i :: 0 <= i < |t| ==> (t + [e])[i] == t[i];
    assert (t + [e])[|t|] == e;
  }

  lemma {:induction false} BundleEarned(order: Order, w: World, pc: Pc, env: Env)
    requires Earned(w.trace, LimitSent(order.limit)) && (pc.AtQuota? ==> Granted(w.trace, pc.volume))
    ensures Earned(RunFrom(order, w, pc, env).0.trace, LimitSent(order.limit))
    decreases Ahead(pc), Attempts(pc)
  {
    hide Earned, Granted, Apply, LimitSent;
    if !pc.Done? {
      var w' := Perform(w, env, Request(order, pc));
      CallOf(w, env, Request(order, pc));
      assert w'.trace == w.trace + [Last(w')];
      EarnedStep(w.trace, Last(w'), LimitSent(order.limit));
      var pc' := Resume(order, pc, Last(w'));
      if pc'.AtQuota? { GrantedStep(w.trace, Last(w'), pc'.volume); }
      BundleEarned(order, w', pc', env);
    }
  }

  predicate NoCommit(t: seq<Event>) { forall i :: 0 <= i < |t| ==> !t[i].call.CommitQuota? }

  lemma NoCommitStep(w: World, env: Env, c: Call)
    requires NoCommit(w.trace) && !c.CommitQuota?
    ensures NoCommit(Perform(w, env, c).trace)
  {
  }

  lemma {:induction false} DestroyNoCommit(w: World, env: Env, path: string, n: nat)
    requires NoCommit(w.trace) && n >= 1
    ensures NoCommit(DestroyFrom(w, env, path, n).0.trace)
    decreases n
  {
    hide Perform, NoCommit, DestroyFrom;
    var w1 := Perform(w, env, UnprepareLayer(path));
    var w2 := Perform(w1, env, DeactivateLayer(path));
    NoCommitStep(w, env, UnprepareLayer(path));
    NoCommitStep(w1, env, DeactivateLayer(path));
    NoCommitStep(w2, env, RemoveLayer(path));
    DestroyStep(w, env, path, n);
    if n > 1 { DestroyNoCommit(Attempt(w, env, path), env, path, n - 1); }
  }

  /** Only `Bundle` commits quotas. */
  lemma DeedEarned(store: string, d: Disk, deed: Deed)
    ensures var t := TraceOf(store, d, deed);
            if deed.act.Create? then Earned(t, LimitSent(deed.act.limit)) else NoCommit(t)
  {
    hide VolumePath, VolumeStore, Perform, DestroyFrom, RunFrom, LimitSent, Marshal;
    var path, home, w := VolumePath(store, deed.id), VolumeStore(store), World(d, []);
    match deed.act
    case Create(layers, limit) => BundleEarned(Order(home, path, layers, limit), w, AtMkdir, deed.env);
    case Delete =>
      NoCommitStep(w, deed.env, LayerExists(path));
      DestroyNoCommit(Perform(w, deed.env, LayerExists(path)), deed.env, path, 3);
    case Describe(size) => NoCommitStep(w, deed.env, WriteFile(path, METADATA_FILE, Marshal(size)));
  }

  lemma {:induction false} ReplayQuota(d: Disk, t: seq<Event>, limit: int, volume: string)
    requires Earned(t, limit)
    ensures QuotaAt(Replay(d, t), volume) == QuotaAt(d, volume)
         || (Granted(t, volume) && QuotaAt(Replay(d, t), volume) == Some(limit))
  {
    hide Apply;
    if t != [] {
      var init, e := t[..|t| - 1], t[|t| - 1];
      assert forall i :: 0 <= i < |init| ==> init[i] == t[i] && init[..i] == t[..i];
      ReplayQuota(d, init, limit, volume);
      QuotasEffect(Replay(d, init), e);
      assert Granted(init, volume) ==> Granted(t, volume);
    }
  }

  lemma {:induction false} ReplayNoCommit(d: Disk, t: seq<Event>)
    requires NoCommit(t)
    ensures Replay(d, t).quotas == d.quotas
  {
    hide Apply;
    if t != [] {
      ReplayNoCommit(d, t[..|t| - 1]);
      QuotasEffect(Replay(d, t[..|t| - 1]), t[|t| - 1]);
    }
  }

  /** A deed changes the quota of a mount path only if it is a `Bundle` that was given it, and then to its limit. */
  lemma DeedQuota(store: string, d: Disk, deed: Deed, volume: string)
    ensures var d' := AfterDeed(store, d, deed);
            || QuotaAt(d', volume) == QuotaAt(d, volume)
            || (&& deed.act.Create? && Granted(DeedCalls(store, d, deed), volume)
                && QuotaAt(d', volume) == Some(LimitSent(deed.act.limit)))
  {
    hide TraceOf, LimitSent, Replay, Granted, QuotaAt;
    DeedEarned(store, d, deed);
    var t, kept := TraceOf(store, d, deed), DeedCalls(store, d, deed);
    assert forall i :: 0 <= i < |kept| ==> kept[i] == t[i] && kept[..i] == t[..i];
    if deed.act.Create? {
      ReplayQuota(d, kept, LimitSent(deed.act.limit), volume);
    } else {
      ReplayNoCommit(d, kept);
      SameQuota(d, AfterDeed(store, d, deed), volume);
    }
  }

  lemma SameQuota(d: Disk, d': Disk, volume: string)
    requires d'.quotas == d.quotas
    ensures QuotaAt(d', volume) == QuotaAt(d, volume)
  {
  }
}
