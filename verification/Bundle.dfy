/** driver/bundle.go and driver/delete.go: one run of `Bundle` as a program that makes one outside call at a time. */
module Bundle {
  import opened GoBase
  import opened Machine
  import opened Hcs
  import opened Quota

  /** The volume store, the bundle's folder in it, the layer folders newest first, and the disk limit. */
  datatype Order = Order(home: string, path: string, parents: seq<string>, limit: int)

  datatype Cause = CreateFailed | MountFailed | NoMountPath | QuotaFailed

  /**
   `Refused`: the store could not be made or the check failed. `Aborted`: a later failure, with whether the
   cleanup's DestroyLayer succeeded. `Panicked`: that DestroyLayer panicked.
   */
  datatype Outcome = Success(volume: string) | Refused | AlreadyExists | Aborted(cause: Cause, cleaned: bool) | Panicked

  /** The call the program is about to make, with what it remembers. */
  datatype Pc =
    | AtMkdir | AtCheck
    | AtLock | AtCreate | AtActivate | AtPrepare | AtUnlock(created: bool)
    | AtMount | AtQuota(volume: string)
    | AtUnprepare(cause: Cause, left: nat)
    | AtDeactivate(cause: Cause, left: nat, unprepared: bool)
    | AtRemove(cause: Cause, left: nat, unprepared: bool, deactivated: bool)
    | Done(outcome: Outcome)

  function Request(order: Order, pc: Pc): Call
    requires !pc.Done?
  {
    match pc
    case AtMkdir => MkdirAll(order.home)
    case AtCheck => LayerExists(order.path)
    case AtLock => OpenLock
    case AtCreate => CreateSandbox(order.path, order.parents)
    case AtActivate => ActivateLayer(order.path)
    case AtPrepare => PrepareLayer(order.path, order.parents)
    case AtUnlock(_) => CloseLock
    case AtMount => GetMountPath(order.path)
    case AtQuota(volume) => CommitQuota(volume, LimitSent(order.limit))
    case AtUnprepare(_, _) => UnprepareLayer(order.path)
    case AtDeactivate(_, _, _) => DeactivateLayer(order.path)
    case AtRemove(_, _, _, _) => RemoveLayer(order.path)
  }

  function Resume(order: Order, pc: Pc, e: Event): Pc
    requires !pc.Done?
  {
    match pc
    case AtMkdir => if e.ok then AtCheck else Done(Refused)
    case AtCheck => if !e.ok then Done(Refused) else if e.found then Done(AlreadyExists) else AtLock
    case AtLock => if e.ok then AtCreate else AtUnprepare(CreateFailed, 3)
    case AtCreate => if e.ok then AtActivate else AtUnlock(false)
    case AtActivate => if e.ok then AtPrepare else AtUnlock(false)
    case AtPrepare => AtUnlock(e.ok)
    case AtUnlock(created) => if created then AtMount else AtUnprepare(CreateFailed, 3)
    case AtMount =>
      if !e.ok then AtUnprepare(MountFailed, 3)
      else if e.text == "" then AtUnprepare(NoMountPath, 3)
      else if ToUint64(order.limit) == 0 then Done(Success(e.text))
      else AtQuota(e.text)
    case AtQuota(volume) => if e.ok then Done(Success(volume)) else AtUnprepare(QuotaFailed, 3)
    case AtUnprepare(cause, left) => AtDeactivate(cause, left, e.ok)
    case AtDeactivate(cause, left, u) => AtRemove(cause, left, u, e.ok)
    case AtRemove(cause, left, u, d) =>
      if e.ok then Done(Aborted(cause, true))
      else if left > 1 then AtUnprepare(cause, left - 1)
      else Done(if u || d then Panicked else Aborted(cause, false))
  }

  function Ahead(pc: Pc): nat {
    match pc
    case AtMkdir => 10
    case AtCheck => 9
    case AtLock => 8
    case AtCreate => 7
    case AtActivate => 6
    case AtPrepare => 5
    case AtUnlock(_) => 4
    case AtMount => 3
    case AtQuota(_) => 2
    case AtUnprepare(_, _) => 1
    case AtDeactivate(_, _, _) => 1
    case AtRemove(_, _, _, _) => 1
    case Done(_) => 0
  }

  function Attempts(pc: Pc): nat {
    match pc
    case AtUnprepare(_, left) => 3 * left + 2
    case AtDeactivate(_, left, _) => 3 * left + 1
    case AtRemove(_, left, _, _) => 3 * left
    case _ => 0
  }

  /** The run to its end. */
  function RunFrom(order: Order, w: World, pc: Pc, env: Env): (World, Outcome)
    decreases Ahead(pc), Attempts(pc)
  {
    if pc.Done? then (w, pc.outcome)
    else
      var w' := Perform(w, env, Request(order, pc));
      RunFrom(order, w', Resume(order, pc, Last(w')), env)
  }

  function BundleRun(order: Order, w: World, env: Env): (World, Outcome) { RunFrom(order, w, AtMkdir, env) }

  lemma {:induction false} RunStep(order: Order, w: World, pc: Pc, env: Env)
    requires !pc.Done?
    ensures RunFrom(order, w, pc, env)
         == var w' := Perform(w, env, Request(order, pc)); RunFrom(order, w', Resume(order, pc, Last(w')), env)
  {
  }

  /** The locked part of the program is `CreateLayer`. */
  lemma RunCreates(order: Order, w: World, env: Env)
    ensures RunFrom(order, w, AtLock, env)
         == var (w', ok) := CreateRun(w, env, order.path, order.parents);
            RunFrom(order, w', if ok then AtMount else AtUnprepare(CreateFailed, 3), env)
  {
    hide Perform, RunFrom;
    RunStep(order, w, AtLock, env);
    var w1 := Perform(w, env, OpenLock);
    if Last(w1).ok {
      RunStep(order, w1, AtCreate, env);
      var w2 := Perform(w1, env, CreateSandbox(order.path, order.parents));
      if Last(w2).ok {
        RunStep(order, w2, AtActivate, env);
        var w3 := Perform(w2, env, ActivateLayer(order.path));
        if Last(w3).ok {
          RunStep(order, w3, AtPrepare, env);
          var w4 := Perform(w3, env, PrepareLayer(order.path, order.parents));
          RunStep(order, w4, AtUnlock(Last(w4).ok), env);
        } else {
          RunStep(order, w3, AtUnlock(false), env);
        }
      } else {
        RunStep(order, w2, AtUnlock(false), env);
      }
    }
  }

  function CleanupOutcome(cause: Cause, s: Status): Outcome {
    match s case Nil => Aborted(cause, true) case Err => Aborted(cause, false) case Panic => Panicked
  }

  /** The cleanup part of the program is `DestroyLayer`. */
  lemma {:induction false} RunDestroys(order: Order, w: World, env: Env, cause: Cause, n: nat)
    requires n >= 1
    ensures RunFrom(order, w, AtUnprepare(cause, n), env)
         == var (w', s) := DestroyFrom(w, env, order.path, n); (w', CleanupOutcome(cause, s))
    decreases n
  {
    hide Perform, RunFrom, DestroyFrom, Attempt;
    var w1 := Perform(w, env, UnprepareLayer(order.path));
    var w2 := Perform(w1, env, DeactivateLayer(order.path));
    var w3 := Perform(w2, env, RemoveLayer(order.path));
    RunStep(order, w, AtUnprepare(cause, n), env);
    RunStep(order, w1, AtDeactivate(cause, n, Last(w1).ok), env);
    RunStep(order, w2, AtRemove(cause, n, Last(w1).ok, Last(w2).ok), env);
    DestroyStep(w, env, order.path, n);
    AttemptTrace(w, env, order.path);
    if Last(w3).ok {
      RunEnds(order, w3, Aborted(cause, true), env);
    } else if n > 1 {
      RunDestroys(order, w3, env, cause, n - 1);
    } else {
      RunEnds(order, w3, if Last(w1).ok || Last(w2).ok then Panicked else Aborted(cause, false), env);
    }
  }

  lemma RunEnds(order: Order, w: World, o: Outcome, env: Env)
    ensures RunFrom(order, w, Done(o), env) == (w, o)
  {
  }

  // ---------------------------------------------------- all or nothing

  /** The volume of an order, prepared on the order's layers. */
  function VolumeOf(order: Order): Folder { FRESH.(stage := Prepared, parents := order.parents) }

  /** What the program knows of its volume at each point, `start` being the volume before the run. */
  predicate Knows(order: Order, pc: Pc, start: Option<Folder>, now: Option<Folder>) {
    match pc
    case AtMkdir => now == start
    case AtCheck => now == start
    case AtLock => now == start == None
    case AtCreate => now == start == None
    case AtActivate => start == None && now == Some(VolumeOf(order).(stage := Created))
    case AtPrepare => start == None && now == Some(VolumeOf(order).(stage := Activated))
    case AtUnlock(created) => start == None && (created ==> now == Some(VolumeOf(order)))
    case AtMount => start == None && now == Some(VolumeOf(order))
    case AtQuota(v) => start == None && now == Some(VolumeOf(order)) && v != ""
    case Done(Success(v)) => start == None && now == Some(VolumeOf(order)) && v != ""
    case Done(Refused) => now == start
    case Done(AlreadyExists) => now == start && start.Some?
    case Done(Aborted(_, cleaned)) => start == None && (cleaned ==> now == None)
    case _ => start == None
  }

  lemma KnowsStep(order: Order, w: World, pc: Pc, env: Env, start: Option<Folder>)
    requires order.path != order.home && !pc.Done? && Knows(order, pc, start, At(w.disk, order.path))
    ensures var w' := Perform(w, env, Request(order, pc));
            Knows(order, Resume(order, pc, Last(w')), start, At(w'.disk, order.path))
  {
  }

  /** Only the volume's folder and the store itself can change, and quotas only by a commit of this limit. */
  ghost predicate Confined(order: Order, d: Disk, d': Disk) {
    forall q :: q != order.path && q != order.home ==> At(d', q) == At(d, q)
  }

  lemma ConfinedStep(order: Order, w: World, pc: Pc, env: Env)
    requires !pc.Done?
    ensures var w' := Perform(w, env, Request(order, pc));
            && Confined(order, w.disk, w'.disk)
            && w'.disk.quotas == if pc.AtQuota? && Last(w').ok then w.disk.quotas[pc.volume := LimitSent(order.limit)] else w.disk.quotas
  {
  }

  /** The quotas a run may leave, seen from where it is. */
  predicate QuotaKept(order: Order, pc: Pc, before: map<string, int>, now: map<string, int>) {
    if pc.Done? && pc.outcome.Success? && ToUint64(order.limit) != 0 then now == before[pc.outcome.volume := LimitSent(order.limit)]
    else now == before
  }

  lemma {:induction false} RunKnows(order: Order, d: Disk, w: World, pc: Pc, env: Env)
    requires order.path != order.home && Knows(order, pc, At(d, order.path), At(w.disk, order.path)) && Confined(order, d, w.disk)
    requires QuotaKept(order, pc, d.quotas, w.disk.quotas) && (pc.AtQuota? ==> ToUint64(order.limit) != 0)
    ensures var (w', o) := RunFrom(order, w, pc, env);
            && Knows(order, Done(o), At(d, order.path), At(w'.disk, order.path)) && Confined(order, d, w'.disk)
            && QuotaKept(order, Done(o), d.quotas, w'.disk.quotas)
    decreases Ahead(pc), Attempts(pc)
  {
    hide Perform, At, Knows;
    if !pc.Done? {
      KnowsStep(order, w, pc, env, At(d, order.path));
      ConfinedStep(order, w, pc, env);
      var w' := Perform(w, env, Request(order, pc));
      RunKnows(order, d, w', Resume(order, pc, Last(w')), env);
    }
  }

  /**
   All or nothing. A success leaves the volume prepared on exactly the given layers, behind a non-empty mount path,
   with exactly the limit on record, or no new quota for limit 0. A failure after the check whose cleanup succeeded leaves the bundle
   absent. A bundle that existed is untouched, whatever happens. No other folder changes.
   */
  lemma BundleAllOrNothing(order: Order, start: World, env: Env)
    requires order.path != order.home && IsInt64(order.limit)
    ensures var d := start.disk;
            var (w, o) := BundleRun(order, start, env);
            && Confined(order, d, w.disk)
            && (o.Success? ==>
                  && o.volume != "" && At(d, order.path) == None && At(w.disk, order.path) == Some(VolumeOf(order))
                  && w.disk.quotas == if order.limit == 0 then d.quotas else d.quotas[o.volume := LimitSent(order.limit)])
            && (!o.Success? ==> w.disk.quotas == d.quotas)
            && (o.Aborted? && o.cleaned ==> At(w.disk, order.path) == None)
            && (order.path in d.folders ==> o in {Refused, AlreadyExists} && At(w.disk, order.path) == At(d, order.path))
  {
    hide RunFrom;
    RunKnows(order, start.disk, start, AtMkdir, env);
    LimitExact(order.limit);
  }

  // ---------------------------------------------------- the calls and what they say

  function Calls(t: seq<Event>): seq<Call> { seq(|t|, i requires 0 <= i < |t| => t[i].call) }

  /** What a Bundle that meets no obstacle asks for, in order; without a limit the last call is left out. */
  function Script(order: Order, volume: string): seq<Call> {
    [MkdirAll(order.home), LayerExists(order.path), OpenLock, CreateSandbox(order.path, order.parents), ActivateLayer(order.path),
     PrepareLayer(order.path, order.parents), CloseLock, GetMountPath(order.path), CommitQuota(volume, LimitSent(order.limit))]
  }

  /** The first `n` calls of the script were made; all succeeded, save perhaps the unlocking; the bundle was absent. */
  predicate Went(order: Order, t: seq<Event>, n: nat) {
    && n <= 8 && |t| == n && Calls(t) == Script(order, "")[..n]
    && (forall i :: 0 <= i < n && i != 6 ==> t[i].ok) && (n >= 2 ==> !t[1].found)
  }

  /** All went well up to the call that is the cause. A failure under the lock is followed by the unlocking. */
  predicate StoppedBy(order: Order, t: seq<Event>, cause: Cause) {
    match cause
    case CreateFailed =>
      || (|t| == 3 && Went(order, t[..2], 2) && t[2].call == OpenLock && !t[2].ok)
      || (&& 5 <= |t| <= 7 && Went(order, t[..|t| - 2], |t| - 2) && t[|t| - 2].call == Script(order, "")[|t| - 2] && !t[|t| - 2].ok
          && t[|t| - 1].call == CloseLock)
    case MountFailed => |t| == 8 && Went(order, t[..7], 7) && t[7].call == GetMountPath(order.path) && !t[7].ok
    case NoMountPath => Went(order, t, 8) && t[7].text == ""
    case QuotaFailed =>
      && |t| == 9 && Went(order, t[..8], 8) && t[7].text != "" && ToUint64(order.limit) != 0
      && t[8].call == CommitQuota(t[7].text, LimitSent(order.limit)) && !t[8].ok
  }

  /** The calls of a run decide its outcome. Whatever stops it after the check is followed by `DestroyLayer`. */
  ghost predicate Tells(order: Order, t: seq<Event>, o: Outcome) {
    match o
    case Refused =>
      || (|t| == 1 && t[0].call == MkdirAll(order.home) && !t[0].ok)
      || (|t| == 2 && Went(order, t[..1], 1) && t[1].call == LayerExists(order.path) && !t[1].ok)
    case AlreadyExists => |t| == 2 && Went(order, t[..1], 1) && t[1].call == LayerExists(order.path) && t[1].ok && t[1].found
    case Success(volume) =>
      && volume != ""
      && (if ToUint64(order.limit) == 0 then Went(order, t, 8)
          else |t| == 9 && Went(order, t[..8], 8) && t[8].call == CommitQuota(volume, LimitSent(order.limit)) && t[8].ok)
      && t[7].text == volume
    case Aborted(cause, cleaned) =>
      exists n :: 0 <= n <= |t| && StoppedBy(order, t[..n], cause) && Destroys(t[n..], order.path, if cleaned then Nil else Err)
    case Panicked => exists n, cause :: 0 <= n <= |t| && StoppedBy(order, t[..n], cause) && Destroys(t[n..], order.path, Panic)
  }

  /** What the calls so far look like at each point before the cleanup. */
  ghost predicate Reads(order: Order, pc: Pc, t: seq<Event>) {
    match pc
    case AtMkdir => Went(order, t, 0)
    case AtCheck => |t| == 1 && Went(order, t, 1)
    case AtLock => Went(order, t, 2)
    case AtCreate => Went(order, t, 3)
    case AtActivate => Went(order, t, 4)
    case AtPrepare => Went(order, t, 5)
    case AtUnlock(created) =>
      if created then Went(order, t, 6)
      else 4 <= |t| <= 6 && Went(order, t[..|t| - 1], |t| - 1) && t[|t| - 1].call == Script(order, "")[|t| - 1] && !t[|t| - 1].ok
    case AtMount => Went(order, t, 7)
    case AtQuota(volume) => Went(order, t, 8) && t[7].text == volume != "" && ToUint64(order.limit) != 0
    case AtUnprepare(cause, left) => left == 3 && StoppedBy(order, t, cause)
    case Done(o) => (o.Success? || o.Refused? || o.AlreadyExists?) && Tells(order, t, o)
    case _ => false
  }

  lemma WentStep(order: Order, t: seq<Event>, n: nat, e: Event)
    requires n <= 7 && Went(order, t, n) && e.call == Script(order, "")[n] && (n != 6 ==> e.ok) && (n == 1 ==> !e.found)
    ensures Went(order, t + [e], n + 1)
  {
    hide LimitSent;
    var t' := t + [e];
    assert Calls(t') == Calls(t) + [e.call];
    assert Script(order, "")[..n + 1] == Script(order, "")[..n] + [e.call];
    assert forall i :: 0 <= i < n ==> t'[i] == t[i];
  }

  lemma ReadsStep(order: Order, pc: Pc, t: seq<Event>, e: Event)
    requires Reads(order, pc, t) && Ahead(pc) >= 2 && e.call == Request(order, pc)
    ensures Reads(order, Resume(order, pc, e), t + [e])
  {
    hide LimitSent, Went, Destroys, Calls, ToUint64;
    var t', n := t + [e], |t|;
    assert t'[..n] == t && t'[n] == e;
    WentShort(order, pc, t);
    if pc.AtUnlock? && !pc.created {
      assert t'[..|t'| - 2] == t[..|t| - 1] && t'[|t'| - 2] == t[|t| - 1];
    } else if !pc.AtQuota? && (pc.AtUnlock? || e.ok) && !(pc.AtCheck? && e.found) {
      WentStep(order, t, n, e);
    }
  }

  /** How many calls have been made, and that they went well. */
  lemma WentShort(order: Order, pc: Pc, t: seq<Event>)
    requires Reads(order, pc, t) && Ahead(pc) >= 2
    ensures |t| <= 8 && (|t| == 8 <==> pc.AtQuota?)
    ensures !(pc.AtUnlock? && !pc.created) ==> Went(order, t, |t|)
    ensures (pc.AtMkdir? ==> |t| == 0) && (pc.AtCheck? ==> |t| == 1) && (pc.AtLock? ==> |t| == 2) && (pc.AtCreate? ==> |t| == 3)
    ensures (pc.AtActivate? ==> |t| == 4) && (pc.AtPrepare? ==> |t| == 5) && (pc.AtMount? ==> |t| == 7)
    ensures pc.AtUnlock? && pc.created ==> |t| == 6
  {
  }

  lemma {:induction false} RunReads(order: Order, start: World, w: World, pc: Pc, env: Env)
    requires Extends(start, w) && Reads(order, pc, Since(start, w)) && (Ahead(pc) >= 2 || pc.Done?)
    ensures var (w', o) := RunFrom(order, w, pc, env); Extends(start, w') && Tells(order, Since(start, w'), o)
    decreases Ahead(pc), Attempts(pc)
  {
    hide Perform, Reads, Tells, Destroys, DestroyFrom, Request, Resume;
    if pc.Done? {
      ReadsDone(order, pc, Since(start, w));
    } else {
      var c := Request(order, pc);
      var w1 := Perform(w, env, c);
      OneMore(start, w, env, c);
      RequestIs(order, pc, Last(w1));
      ReadsStep(order, pc, Since(start, w), Last(w1));
      var pc' := Resume(order, pc, Last(w1));
      if pc'.AtUnprepare? {
        CleanupReads(order, start, w1, pc', env);
      } else {
        RunReads(order, start, w1, pc', env);
      }
    }
  }

  lemma RequestIs(order: Order, pc: Pc, e: Event)
    requires !pc.Done? && Ahead(pc) >= 2
    ensures var pc' := Resume(order, pc, e); Ahead(pc') < Ahead(pc) && (Ahead(pc') >= 2 || pc'.Done? || pc'.AtUnprepare?)
  {
  }

  lemma ReadsDone(order: Order, pc: Pc, t: seq<Event>)
    requires pc.Done? && Reads(order, pc, t)
    ensures Tells(order, t, pc.outcome)
  {
    hide Tells;
  }

  lemma CleanupReads(order: Order, start: World, w: World, pc: Pc, env: Env)
    requires Extends(start, w) && pc.AtUnprepare? && Reads(order, pc, Since(start, w))
    ensures var (w', o) := RunFrom(order, w, pc, env); Extends(start, w') && Tells(order, Since(start, w'), o)
  {
    hide StoppedBy, Destroys, DestroyFrom, RunFrom;
    RunDestroys(order, w, env, pc.cause, 3);
    DestroyReads(w, env, order.path);
    var (w', s) := DestroyRun(w, env, order.path);
    TraceThen(start, w, w');
    var n, t := |w.trace| - |start.trace|, Since(start, w');
    assert t[..n] == Since(start, w) by { assert w'.trace[..|w.trace|][|start.trace|..] == w.trace[|start.trace|..]; }
    assert t[n..] == Since(w, w');
    assert StoppedBy(order, t[..n], pc.cause) && Destroys(t[n..], order.path, s);
  }

  /** The outcome of every Bundle can be read off its calls and their replies. */
  lemma BundleReads(order: Order, start: World, env: Env)
    ensures var (w, o) := BundleRun(order, start, env); Extends(start, w) && Tells(order, Since(start, w), o)
  {
    hide RunFrom, Tells;
    assert Since(start, start) == [];
    assert Calls([]) == [] == Script(order, "")[..0];
    RunReads(order, start, start, AtMkdir, env);
  }

  /** A Bundle of an absent bundle succeeds if no call fails and the mount path is not empty. */
  lemma BundleSucceeds(order: Order, start: World, env: Env)
    requires order.path != order.home && order.path !in start.disk.folders
    requires FailureFree(env) && env(|start.trace| + 7).text != ""
    ensures BundleRun(order, start, env).1 == Success(env(|start.trace| + 7).text)
  {
    hide RunFrom, Tells, Perform, LimitSent;
    var w1 := Perform(start, env, MkdirAll(order.home));
    RunStep(order, start, AtMkdir, env);
    Succeeds(start, env, MkdirAll(order.home));
    StoreMade(start, env, order);
    var w2 := Perform(w1, env, LayerExists(order.path));
    RunStep(order, w1, AtCheck, env);
    ReplyOf(w1, env, LayerExists(order.path));
    assert env(|w1.trace|).ok;
    RunCreates(order, w2, env);
    CreateSucceeds(w2, env, order.path, order.parents);
    var w7 := CreateRun(w2, env, order.path, order.parents).0;
    RunStep(order, w7, AtMount, env);
    ReplyOf(w7, env, GetMountPath(order.path));
    assert env(|w7.trace|).ok;
    var w8, volume := Perform(w7, env, GetMountPath(order.path)), env(|w7.trace|).text;
    if ToUint64(order.limit) != 0 {
      RunStep(order, w8, AtQuota(volume), env);
      Succeeds(w8, env, CommitQuota(volume, LimitSent(order.limit)));
      RunEnds(order, Perform(w8, env, CommitQuota(volume, LimitSent(order.limit))), Success(volume), env);
    } else {
      RunEnds(order, w8, Success(volume), env);
    }
  }

  lemma StoreMade(w: World, env: Env, order: Order)
    requires order.path != order.home && order.path !in w.disk.folders
    ensures order.path !in Perform(w, env, MkdirAll(order.home)).disk.folders
  {
  }

  lemma CreateSucceeds(w: World, env: Env, path: string, parents: seq<string>)
    requires FailureFree(env)
    ensures var (w', ok) := CreateRun(w, env, path, parents); ok && |w'.trace| == |w.trace| + 5
  {
    hide Perform;
    Succeeds(w, env, OpenLock);
    var w1 := Perform(w, env, OpenLock);
    Succeeds(w1, env, CreateSandbox(path, parents));
    var w2 := Perform(w1, env, CreateSandbox(path, parents));
    Succeeds(w2, env, ActivateLayer(path));
    Succeeds(Perform(w2, env, ActivateLayer(path)), env, PrepareLayer(path, parents));
  }

  // ---------------------------------------------------- Delete

  function DeleteRun(w: World, env: Env, path: string): (World, Status) {
    var w1 := Perform(w, env, LayerExists(path));
    if !Last(w1).ok then (w1, Err)
    else if !Last(w1).found then (w1, Nil)
    else DestroyRun(w1, env, path)
  }

  /** Delete refuses if its check fails, is done if the bundle is absent, and otherwise is `DestroyLayer`. */
  ghost predicate DeleteTells(d: Disk, t: seq<Event>, path: string, s: Status) {
    && t != [] && t[0].call == LayerExists(path)
    && if !t[0].ok then |t| == 1 && s == Err
       else if path !in d.folders then |t| == 1 && s == Nil
       else Destroys(t[1..], path, s)
  }

  lemma DeleteReads(start: World, env: Env, path: string)
    ensures var (w, s) := DeleteRun(start, env, path);
            Extends(start, w) && DeleteTells(start.disk, Since(start, w), path, s)
  {
    hide DestroyFrom, Destroys, Perform;
    var w1 := Perform(start, env, LayerExists(path));
    TraceOne(start, env, LayerExists(path));
    ReplyOf(start, env, LayerExists(path));
    if Last(w1).ok && Last(w1).found {
      DestroyReads(w1, env, path);
      var w := DestroyRun(w1, env, path).0;
      TraceThen(start, w1, w);
      assert w.trace[..|w1.trace|][|start.trace|] == Last(w1);
      assert Since(start, w)[1..] == Since(w1, w);
    }
  }

  /**
   A successful Delete leaves the bundle absent from whatever stage it was left in, touching nothing else, and
   deleting again is one existence check. Without failures Delete succeeds.
   */
  lemma DeleteRemoves(start: World, env: Env, path: string, env': Env)
    ensures var (w, s) := DeleteRun(start, env, path);
            && OnlyShrank(start.disk, w.disk, path)
            && (s == Nil ==> At(w.disk, path) == None)
            && (s == Nil ==> var (w', s') := DeleteRun(World(w.disk, []), env', path);
                  w'.disk == w.disk && |w'.trace| == 1 && w'.trace[0].call == LayerExists(path) && (s' == Nil <==> env'(0).ok))
            && (FailureFree(env) ==> s == Nil)
  {
    hide DestroyFrom, Attempt;
    var w1 := Perform(start, env, LayerExists(path));
    DestroyOutcome(w1, env, path, 3);
    if FailureFree(env) {
      assert env(|start.trace|).ok;
      DestroySucceeds(w1, env, path);
    }
  }

  /** Delete undoes Bundle: after any Bundle of an absent bundle, a successful Delete restores every folder but the store's own. */
  lemma DeleteUndoesBundle(order: Order, d: Disk, env: Env, env': Env)
    requires order.path != order.home && order.path !in d.folders && IsInt64(order.limit)
    ensures var w := BundleRun(order, World(d, []), env).0;
            var (w', s) := DeleteRun(World(w.disk, []), env', order.path);
            s == Nil ==> forall q :: q != order.home ==> At(w'.disk, q) == At(d, q)
  {
    hide DeleteRun, BundleRun;
    BundleAllOrNothing(order, World(d, []), env);
    var w := BundleRun(order, World(d, []), env).0;
    DeleteRemoves(World(w.disk, []), env', order.path, env');
    var w' := DeleteRun(World(w.disk, []), env', order.path).0;
    forall q | q != order.home && q != order.path
      ensures At(w'.disk, q) == At(d, q)
    {
      ShrankElsewhere(w.disk, w'.disk, order.path, q);
    }
  }

  lemma ShrankElsewhere(d: Disk, d': Disk, path: string, q: string)
    requires OnlyShrank(d, d', path) && q != path
    ensures At(d', q) == At(d, q)
  {
    assert q in d.folders <==> q in (d.folders - {path});
    assert q in d'.folders <==> q in (d'.folders - {path});
    if q in d.folders { assert (d.folders - {path})[q] == (d'.folders - {path})[q]; }
  }
}
