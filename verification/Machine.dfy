/**
 The machine the driver runs on. A run makes one outside call after another; the environment answers each call
 by its position in the run, so quantifying over environments covers every pattern of failures. A failed call
 may leave debris. The trace records the calls, and replaying any prefix of it gives the disk of a run killed
 at that point.

 Assumed of the outside: `LayerExists` tells the truth when it answers, `os.WriteFile` either writes the whole
 text or leaves the file alone, and a quota whose Commit fails is not put on record.
 */
module Machine {
  import opened GoBase
  import opened Tar
  import WinPath

  /** Lifecycle of a folder that exists; an absent layer has no folder. */
  datatype Stage = Created | Activated | Prepared

  function Rank(s: Stage): nat {
    match s case Created => 1 case Activated => 2 case Prepared => 3
  }

  function Lower(a: Stage, b: Stage): Stage { if Rank(a) <= Rank(b) then a else b }

  /**
   A layer or volume folder. `parents` are the folders its layer writer or its creation was given, `entries` the operations that
   writer accepted, `sealed` whether its Close succeeded, `files` the files the driver keeps in the folder. The
   writer of a base layer, which has no parents, creates its entries in that same folder.
   */
  datatype Folder = Folder(stage: Stage, parents: seq<string>, entries: seq<Op>, sealed: bool, files: map<string, string>)

  const FRESH := Folder(Created, [], [], false, map[])

  datatype Disk = Disk(folders: map<string, Folder>, quotas: map<string, int>)

  datatype Call =
    | LayerExists(path: string)
    | MkdirAll(path: string)
    | ReadFile(path: string, file: string)
    | WriteFile(path: string, file: string, text: string)
    | EnablePrivileges
    | DisablePrivileges
    // the container service
    | OpenLock
    | CloseLock
    | CreateSandbox(path: string, parents: seq<string>)
    | ActivateLayer(path: string)
    | PrepareLayer(path: string, parents: seq<string>)
    | UnprepareLayer(path: string)
    | DeactivateLayer(path: string)
    | RemoveLayer(path: string)
    | GetMountPath(path: string)
    // the layer writer
    | NewWriter(path: string, parents: seq<string>)
    | Add(path: string, name: string, info: FileInfo)
    | AddLink(path: string, name: string, target: string)
    | Remove(path: string, name: string)
    | Write(path: string, data: string)
    | CloseWriter(path: string)
    // the tar reader
    | SetReader
    | ResetReader
    | Next
    // backup copies beside the layer
    | CreateBackup(path: string, file: string)
    | WriteBackup(path: string, file: string, data: string)
    | CloseBackupWriter(path: string, file: string)
    | CloseBackupFile(path: string, file: string)
    // the quota library
    | CommitQuota(volume: string, limit: int)
    | QueryQuota(volume: string)

  /**
   What the environment decides about one call: whether it succeeds; if not, whether it took effect all the
   same and what it left behind; and the data an outside query returns.
   */
  datatype Answer = Answer(ok: bool, took: bool, stage: Stage, debris: seq<Op>, kept: set<string>, text: string, number: int)

  /** A call with its reply. */
  datatype Event = Event(call: Call, ok: bool, found: bool, text: string, number: int, answer: Answer)

  predicate HasFile(d: Disk, path: string, file: string) { path in d.folders && file in d.folders[path].files }

  function Reply(d: Disk, c: Call, a: Answer): Event {
    match c
    case LayerExists(p) => Event(c, a.ok, p in d.folders, "", 0, a)
    case ReadFile(p, f) =>
      if HasFile(d, p, f) then Event(c, a.ok, true, d.folders[p].files[f], 0, a) else Event(c, a.ok, false, "", 0, a)
    case WriteFile(p, _, _) => Event(c, a.ok && p in d.folders, false, "", 0, a)
    case CreateBackup(p, _) => Event(c, a.ok && p in d.folders, false, "", 0, a)
    case GetMountPath(_) => Event(c, a.ok, false, a.text, 0, a)
    case SetReader => Event(c, true, false, "", 0, a)
    case ResetReader => Event(c, true, false, "", 0, a)
    case Next => Event(c, true, false, "", 0, a)
    case QueryQuota(v) => Event(c, a.ok, v in d.quotas, "", if v in d.quotas then ToUint64(a.number) else 0, a)
    case _ => Event(c, a.ok, false, "", 0, a)
  }

  function At(d: Disk, path: string): Option<Folder> { if path in d.folders then Some(d.folders[path]) else None }

  function Ensure(d: Disk, p: string): Disk {
    if p in d.folders then d else d.(folders := d.folders[p := FRESH])
  }

  function Put(d: Disk, p: string, f: Folder): Disk { d.(folders := d.folders[p := f]) }

  /** The folder after a writer call: the operation if it succeeded, debris if not. */
  function Accept(f: Folder, e: Event, op: Op): Folder {
    f.(entries := if e.ok then f.entries + [op] else e.answer.debris)
  }

  const SIZE_FILE := "size"

  /** Windows file names know no case. */
  function Fold(s: string): string {
    if s == "" then "" else [if 'A' <= s[0] <= 'Z' then (s[0] as int + 32) as char else s[0]] + Fold(s[1..])
  }

  /** The file in the layer's root that an entry is created as. */
  function RootFile(name: string): string { Fold(WinPath.Clean(name)) }

  /** In a base layer an entry of the marker's name is the marker, whatever the archive put into it. */
  function Adopt(f: Folder, e: Event, op: Op): Folder {
    var g := Accept(f, e, op);
    if f.parents == [] && RootFile(op.name) == SIZE_FILE && (e.ok || e.answer.took) then
      g.(files := f.files[SIZE_FILE := e.answer.text])
    else g
  }

  /** More data for the file added last. */
  function Extend(entries: seq<Op>, data: string): seq<Op> {
    if entries != [] && entries[|entries| - 1].OpAdd? then
      var last := entries[|entries| - 1];
      entries[..|entries| - 1] + [last.(data := last.data + data)]
    else entries
  }

  function Restrict(files: map<string, string>, kept: set<string>): map<string, string> {
    map k | k in files && k in kept :: files[k]
  }

  /** The disk after a call. */
  function Apply(d: Disk, e: Event): Disk {
    var effect := e.ok || e.answer.took;
    match e.call
    case MkdirAll(p) => if effect then Ensure(d, p) else d
    case CreateSandbox(p, parents) => if effect && p !in d.folders then Put(d, p, FRESH.(parents := parents)) else d
    case CommitQuota(v, limit) => if e.ok then d.(quotas := d.quotas[v := limit]) else d
    case RemoveLayer(p) =>
      if p !in d.folders then d
      else if effect then d.(folders := d.folders - {p})
      else
        var f := d.folders[p];
        Put(d, p, f.(stage := Lower(f.stage, e.answer.stage), entries := e.answer.debris, files := Restrict(f.files, e.answer.kept)))
    case UnprepareLayer(p) =>
      if p !in d.folders then d
      else var f := d.folders[p]; Put(d, p, f.(stage := Lower(f.stage, if e.ok then Activated else e.answer.stage)))
    case DeactivateLayer(p) =>
      if p !in d.folders then d
      else var f := d.folders[p]; Put(d, p, f.(stage := Lower(f.stage, if e.ok then Created else e.answer.stage)))
    case ActivateLayer(p) =>
      if p in d.folders && effect && d.folders[p].stage == Created then Put(d, p, d.folders[p].(stage := Activated)) else d
    case PrepareLayer(p, _) =>
      if p in d.folders && effect && d.folders[p].stage == Activated then Put(d, p, d.folders[p].(stage := Prepared)) else d
    case NewWriter(p, parents) => if p in d.folders && effect then Put(d, p, d.folders[p].(parents := parents)) else d
    case Add(p, n, i) => if p in d.folders then Put(d, p, Adopt(d.folders[p], e, OpAdd(n, i, ""))) else d
    case AddLink(p, n, t) => if p in d.folders then Put(d, p, Adopt(d.folders[p], e, OpLink(n, t))) else d
    case Remove(p, n) => if p in d.folders then Put(d, p, Accept(d.folders[p], e, OpRemove(n))) else d
    case Write(p, data) =>
      if p !in d.folders then d
      else
        var f := d.folders[p];
        Put(d, p, f.(entries := if e.ok then Extend(f.entries, data) else e.answer.debris))
    case CloseWriter(p) => if p in d.folders then Put(d, p, d.folders[p].(sealed := e.ok)) else d
    case WriteFile(p, file, text) =>
      if e.ok && p in d.folders then Put(d, p, d.folders[p].(files := d.folders[p].files[file := text])) else d
    case CreateBackup(p, file) =>
      if effect && p in d.folders then Put(d, p, d.folders[p].(files := d.folders[p].files[file := ""])) else d
    case WriteBackup(p, file, data) =>
      if HasFile(d, p, file) then
        var f := d.folders[p];
        Put(d, p, f.(files := f.files[file := f.files[file] + if e.ok then data else e.answer.text]))
      else d
    case _ => d
  }

  // ---------------------------------------------------- runs

  datatype World = World(disk: Disk, trace: seq<Event>)

  type Env = nat -> Answer

  /** One outside call. */
  function Perform(w: World, env: Env, c: Call): (r: World)
    ensures |r.trace| == |w.trace| + 1
  {
    var e := Reply(w.disk, c, env(|w.trace|));
    World(Apply(w.disk, e), w.trace + [e])
  }

  function Last(w: World): Event
    requires w.trace != []
  {
    w.trace[|w.trace| - 1]
  }

  /** The disk after a prefix of a run. */
  function Replay(d: Disk, t: seq<Event>): Disk {
    if t == [] then d else Apply(Replay(d, t[..|t| - 1]), t[|t| - 1])
  }

  /** The part of a run's trace that was made before the process was killed, if it was. */
  function Until(t: seq<Event>, killed: Option<nat>): seq<Event> {
    if killed.Some? && killed.value < |t| then t[..killed.value] else t
  }

  /** A list of calls, one after another. */
  function RunCalls(w: World, env: Env, cs: seq<Call>): World {
    if cs == [] then w else Perform(RunCalls(w, env, cs[..|cs| - 1]), env, cs[|cs| - 1])
  }

  lemma {:induction false} RunConcat(w: World, env: Env, a: seq<Call>, b: seq<Call>)
    ensures RunCalls(w, env, a + b) == RunCalls(RunCalls(w, env, a), env, b)
  {
    if b == [] {
      assert a + b == a;
    } else {
      assert (a + b)[..|a + b| - 1] == a + b[..|b| - 1];
      RunConcat(w, env, a, b[..|b| - 1]);
    }
  }

  lemma {:induction false} RunTrace(w: World, env: Env, cs: seq<Call>)
    ensures var w' := RunCalls(w, env, cs);
            && Extends(w, w') && |w'.trace| == |w.trace| + |cs|
            && forall i :: 0 <= i < |cs| ==> w'.trace[|w.trace| + i].call == cs[i]
  {
    if cs != [] {
      RunTrace(w, env, cs[..|cs| - 1]);
      hide RunCalls, Apply, Reply;
      var w1, c := RunCalls(w, env, cs[..|cs| - 1]), cs[|cs| - 1];
      RunLast(w, env, cs);
      var w' := Perform(w1, env, c);
      assert w'.trace[|w1.trace|].call == c by { CallOf(w1, env, c); }
      assert w'.trace[..|w.trace|] == w1.trace[..|w.trace|];
      assert forall i :: 0 <= i < |w1.trace| ==> w'.trace[i] == w1.trace[i];
    }
  }

  lemma {:induction false} RunLast(w: World, env: Env, cs: seq<Call>)
    requires cs != []
    ensures RunCalls(w, env, cs) == Perform(RunCalls(w, env, cs[..|cs| - 1]), env, cs[|cs| - 1])
  {
  }

  lemma CallOf(w: World, env: Env, c: Call)
    ensures Perform(w, env, c).trace[|w.trace|].call == c
  {
  }

  /** The calls made since `w`. */
  function Since(w: World, w': World): seq<Event>
    requires Extends(w, w')
  {
    w'.trace[|w.trace|..]
  }

  predicate Extends(w: World, w': World) { |w.trace| <= |w'.trace| && w'.trace[..|w.trace|] == w.trace }

  lemma NoneSince(w: World)
    ensures Extends(w, w) && Since(w, w) == []
  {
  }

  lemma OneMore(w: World, w1: World, env: Env, c: Call)
    requires Extends(w, w1)
    ensures var w' := Perform(w1, env, c); Extends(w, w') && Since(w, w') == Since(w, w1) + [Last(w')] && Last(w').call == c
  {
    hide Apply;
    var w' := Perform(w1, env, c);
    assert w'.trace[..|w.trace|] == w1.trace[..|w.trace|];
    CallOf(w1, env, c);
  }

  /** Every call made between the two worlds succeeded. */
  predicate AllOk(w: World, w': World) { forall i :: |w.trace| <= i < |w'.trace| ==> w'.trace[i].ok }

  /**
   Nested sets of calls on one layer: writes; all of a backup-stream call; all of the loop that feeds a tar stream,
   without and with additions under the marker's name.
   */
  datatype Scope = Writes | Streams | Quiet | Feeds

  predicate MayAdd(name: string, scope: Scope) { scope == Feeds || (scope == Quiet && RootFile(name) != SIZE_FILE) }

  predicate InScope(c: Call, path: string, scope: Scope) {
    match c
    case Write(p, _) => p == path
    case WriteBackup(p, file, _) => p == path && file != SIZE_FILE
    case CreateBackup(p, file) => scope != Writes && p == path && file != SIZE_FILE
    case CloseBackupWriter(p, _) => scope != Writes && p == path
    case CloseBackupFile(p, _) => scope != Writes && p == path
    case Next => scope == Quiet || scope == Feeds
    case Add(p, n, _) => MayAdd(n, scope) && p == path
    case AddLink(p, n, _) => MayAdd(n, scope) && p == path
    case Remove(p, _) => (scope == Quiet || scope == Feeds) && p == path
    case _ => false
  }

  predicate AllInScope(cs: seq<Call>, path: string, scope: Scope) {
    forall i :: 0 <= i < |cs| ==> InScope(cs[i], path, scope)
  }

  /** From `w` to `w'` by calls in scope only. */
  ghost predicate Fed(w: World, w': World, env: Env, path: string, scope: Scope) {
    exists cs :: AllInScope(cs, path, scope) && w' == RunCalls(w, env, cs)
  }

  lemma FedNone(w: World, env: Env, path: string, scope: Scope)
    ensures Fed(w, w, env, path, scope)
  {
    assert AllInScope([], path, scope) && w == RunCalls(w, env, []);
  }

  lemma FedOne(w: World, env: Env, path: string, scope: Scope, c: Call)
    requires InScope(c, path, scope)
    ensures Fed(w, Perform(w, env, c), env, path, scope)
  {
    var cs := [c];
    assert cs[..|cs| - 1] == [];
    assert AllInScope(cs, path, scope) && Perform(w, env, c) == RunCalls(w, env, cs);
  }

  lemma FedThen(w: World, w1: World, w2: World, env: Env, path: string, scope: Scope)
    requires Fed(w, w1, env, path, scope) && Fed(w1, w2, env, path, scope)
    ensures Fed(w, w2, env, path, scope)
  {
    var a :| AllInScope(a, path, scope) && w1 == RunCalls(w, env, a);
    var b :| AllInScope(b, path, scope) && w2 == RunCalls(w1, env, b);
    RunConcat(w, env, a, b);
    assert AllInScope(a + b, path, scope);
  }

  lemma FedWiden(w: World, w': World, env: Env, path: string, scope: Scope, wider: Scope)
    requires Fed(w, w', env, path, scope)
    requires scope == Writes || (scope == Streams && (wider == Quiet || wider == Feeds))
    ensures Fed(w, w', env, path, wider)
  {
    var cs :| AllInScope(cs, path, scope) && w' == RunCalls(w, env, cs);
    assert AllInScope(cs, path, wider);
  }

  lemma FedTrace(w: World, w': World, env: Env, path: string, scope: Scope)
    requires Fed(w, w', env, path, scope)
    ensures Extends(w, w')
    ensures forall i :: |w.trace| <= i < |w'.trace| ==> InScope(w'.trace[i].call, path, scope)
  {
    var cs :| AllInScope(cs, path, scope) && w' == RunCalls(w, env, cs);
    RunTrace(w, env, cs);
    assert forall i :: |w.trace| <= i < |w'.trace| ==> w'.trace[i].call == cs[i - |w.trace|];
  }

  lemma WriteFileEffect(w: World, env: Env, path: string, file: string, text: string)
    requires path in w.disk.folders
    ensures var w' := Perform(w, env, WriteFile(path, file, text));
            var f := w.disk.folders[path];
            w'.disk == if Last(w').ok then Put(w.disk, path, f.(files := f.files[file := text])) else w.disk
  {
  }

  lemma ReplyOf(w: World, env: Env, c: Call)
    ensures Last(Perform(w, env, c)) == Reply(w.disk, c, env(|w.trace|))
  {
  }

  /** The calls that leave the disk alone. */
  lemma ReadEffect(w: World, env: Env, c: Call)
    requires c.LayerExists? || c.ReadFile? || c.GetMountPath? || c.QueryQuota? || c.Next? || c.SetReader? || c.ResetReader? || c.EnablePrivileges? || c.DisablePrivileges?
    ensures Perform(w, env, c).disk == w.disk
  {
  }

  lemma MkdirEffect(w: World, env: Env, path: string)
    requires path !in w.disk.folders
    ensures var w' := Perform(w, env, MkdirAll(path));
            && (w'.disk == w.disk || w'.disk == Put(w.disk, path, FRESH))
            && (Last(w').ok ==> w'.disk == Put(w.disk, path, FRESH))
  {
  }

  lemma NewWriterEffect(w: World, env: Env, path: string, parents: seq<string>)
    requires path in w.disk.folders
    ensures var w' := Perform(w, env, NewWriter(path, parents));
            var f := w.disk.folders[path].(parents := parents);
            && (w'.disk == w.disk || w'.disk == Put(w.disk, path, f))
            && (Last(w').ok ==> w'.disk == Put(w.disk, path, f))
  {
  }

  lemma QuotasEffect(d: Disk, e: Event)
    ensures Apply(d, e).quotas == if e.call.CommitQuota? && e.ok then d.quotas[e.call.volume := e.call.limit] else d.quotas
  {
    hide Extend, Accept, Restrict, HasFile;
  }

  predicate IsClose(c: Call) { c.CloseBackupWriter? || c.CloseBackupFile? }

  /** Some call between the two worlds failed that is not a backup's close. */
  predicate WriteFailed(w: World, w': World) {
    exists i :: |w.trace| <= i < |w'.trace| && !w'.trace[i].ok && !IsClose(w'.trace[i].call)
  }

  lemma TraceThen(w: World, w1: World, w2: World)
    requires Extends(w, w1) && Extends(w1, w2)
    ensures Extends(w, w2)
    ensures AllOk(w, w2) <==> AllOk(w, w1) && AllOk(w1, w2)
    ensures WriteFailed(w, w2) <==> WriteFailed(w, w1) || WriteFailed(w1, w2)
  {
    assert w2.trace[..|w.trace|] == w2.trace[..|w1.trace|][..|w.trace|];
    assert forall i :: 0 <= i < |w1.trace| ==> w2.trace[i] == w2.trace[..|w1.trace|][i];
    assert forall i :: 0 <= i < |w1.trace| ==> w1.trace[i] == w2.trace[i];
  }

  lemma TraceOne(w: World, env: Env, c: Call)
    ensures var w' := Perform(w, env, c);
            && Extends(w, w') && w'.trace[|w.trace|] == Last(w') && Last(w').call == c
            && (AllOk(w, w') <==> Last(w').ok)
            && (WriteFailed(w, w') <==> !Last(w').ok && !IsClose(c))
  {
    var w' := Perform(w, env, c);
    assert w'.trace[..|w.trace|] == w.trace;
    assert w'.trace[|w.trace|] == Last(w');
  }

  /** No call fails. */
  ghost predicate FailureFree(env: Env) { forall i: nat :: env(i).ok }

  lemma Succeeds(w: World, env: Env, c: Call)
    requires FailureFree(env)
    requires (c.WriteFile? || c.CreateBackup?) ==> c.path in w.disk.folders
    ensures Last(Perform(w, env, c)).ok
  {
    assert env(|w.trace|).ok;
  }

  /** The machine as an object: the driver's collaborators, the disk and the trace behind them. */
  class Host {
    const env: Env
    var disk: Disk
    var trace: seq<Event>

    constructor (env: Env, disk: Disk)
      ensures this.env == env && View() == World(disk, [])
    {
      this.env, this.disk, this.trace := env, disk, [];
    }

    ghost function View(): World
      reads this
    {
      World(disk, trace)
    }

    method Do(c: Call) returns (e: Event)
      modifies this
      ensures View() == Perform(old(View()), env, c)
      ensures e == Last(View())
    {
      e := Reply(disk, c, env(|trace|));
      disk := Apply(disk, e);
      trace := trace + [e];
    }
  }
}
